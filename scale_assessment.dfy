/** The assessment session of one scale: the draft being filled in (patient
    fields and answers), the screen step and the current question index, the
    scoring of the answers and the Barthel interpretation of the score. */
module ScaleAssessment {
  import opened Optional
  import opened JsObject
  import Barthel
  import LocalAssessments

  /** The screen the session is on. */
  datatype Step = Form | Questions | Results

  /** The draft assessment (`Partial<Assessment>`): `score` and
      `interpretation` are absent until the result is first computed. */
  datatype Draft = Draft(
    scaleId: string,
    patientData: Obj<string>,
    answers: Obj<int>,
    score: Option<int>,
    interpretation: Option<string>)

  /** The patient fields the form starts with, all empty. */
  const EmptyPatientData: Obj<string> :=
    [Entry("name", ""), Entry("age", ""), Entry("gender", ""), Entry("doctorName", "")]

  /** The draft a session starts from and returns to on reset. */
  function InitialDraft(scaleId: string): Draft
  {
    Draft(scaleId, EmptyPatientData, [], None, None)
  }

  // ---------------------------------------------------------------------
  // Scoring

  /** The total score: the sum of the values present in `answers`
      (`Object.values(answers).reduce((sum, val) => sum + val, 0)`; integer
      addition is associative, so summing from the front gives the same total). */
  function Score(answers: Obj<int>): int
  {
    if answers == [] then 0 else answers[0].value + Score(answers[1..])
  }

  /** The points recorded for `questionId`, 0 when it is unanswered. */
  function PointsFor(answers: Obj<int>, questionId: string): int
  {
    Get(answers, questionId).GetOr(0)
  }

  const Severa: string := "Incapacidad funcional Severa"
  const Grave: string := "Incapacidad funcional Grave"
  const Moderada: string := "Incapacidad funcional Moderada"
  const Ligera: string := "Incapacidad funcional Ligera"
  const Independencia: string := "Independencia completa"

  /** The interpretation of a score: the Barthel cut-points for the scale
      "barthel", the empty string for every other scale. */
  function Interpret(scaleId: string, score: int): string
  {
    if scaleId != "barthel" then ""
    else if score < 45 then Severa
    else if score < 60 then Grave
    else if score < 80 then Moderada
    else if score < 100 then Ligera
    else Independencia
  }

  /** The Barthel bands as data: each upper bound (exclusive) with its
      interpretation, lowest first; scores past the last bound are `Independencia`. */
  const BarthelBands: seq<(int, string)> := [(45, Severa), (60, Grave), (80, Moderada), (100, Ligera)]

  /** The interpretation of the first band whose bound exceeds `score`, or `top`. */
  function BandLookup(bands: seq<(int, string)>, top: string, score: int): string
  {
    if bands == [] then top
    else if score < bands[0].0 then bands[0].1
    else BandLookup(bands[1..], top, score)
  }

  /** The interpretation chain agrees with the band table for every score. */
  lemma InterpretIsBandLookup(score: int)
    ensures Interpret("barthel", score) == BandLookup(BarthelBands, Independencia, score)
  {
    var b := BarthelBands;
    assert BandLookup(b[4..], Independencia, score) == Independencia;
    assert BandLookup(b[3..], Independencia, score) == if score < 100 then Ligera else Independencia;
    assert BandLookup(b[2..], Independencia, score) == if score < 80 then Moderada else BandLookup(b[3..], Independencia, score);
    assert BandLookup(b[1..], Independencia, score) == if score < 60 then Grave else BandLookup(b[2..], Independencia, score);
  }

  /** Each Barthel interpretation holds exactly on its half-open range, and
      every other scale gets the empty string. */
  lemma InterpretRanges(scaleId: string, score: int)
    ensures scaleId == "barthel" ==>
      && (Interpret(scaleId, score) == Severa <==> score < 45)
      && (Interpret(scaleId, score) == Grave <==> 45 <= score < 60)
      && (Interpret(scaleId, score) == Moderada <==> 60 <= score < 80)
      && (Interpret(scaleId, score) == Ligera <==> 80 <= score < 100)
      && (Interpret(scaleId, score) == Independencia <==> 100 <= score)
    ensures scaleId != "barthel" ==> Interpret(scaleId, score) == ""
  {
  }

  /** The cut-points at their edges. */
  lemma InterpretBoundaries()
    ensures Interpret("barthel", 44) == Severa
    ensures Interpret("barthel", 45) == Grave && Interpret("barthel", 59) == Grave
    ensures Interpret("barthel", 60) == Moderada && Interpret("barthel", 79) == Moderada
    ensures Interpret("barthel", 80) == Ligera && Interpret("barthel", 99) == Ligera
    ensures Interpret("barthel", 100) == Independencia
  {
  }

  /** How independent an interpretation says the patient is, 0 (Severa) to 4. */
  function Level(interpretation: string): nat
  {
    if interpretation == Severa then 0
    else if interpretation == Grave then 1
    else if interpretation == Moderada then 2
    else if interpretation == Ligera then 3
    else 4
  }

  /** A higher score never gets a more dependent interpretation. */
  lemma InterpretMonotone(s1: int, s2: int)
    requires s1 <= s2
    ensures Level(Interpret("barthel", s1)) <= Level(Interpret("barthel", s2))
  {
  }

  // ---------------------------------------------------------------------
  // The score of answers taken from the Barthel catalogue

  /** Answering `questionId` with `value` changes the score by the difference
      to what was recorded before (nothing, if it was unanswered). */
  lemma {:induction false} ScoreAfterAnswer(answers: Obj<int>, questionId: string, value: int)
    requires UniqueKeys(answers)
    ensures Score(Put(answers, questionId, value)) == Score(answers) - PointsFor(answers, questionId) + value
  {
    if answers != [] && answers[0].key != questionId {
      var rest := answers[1..];
      assert UniqueKeys(rest);
      ScoreAfterAnswer(rest, questionId, value);
      assert Put(answers, questionId, value) == [answers[0]] + Put(rest, questionId, value);
      assert ([answers[0]] + Put(rest, questionId, value))[1..] == Put(rest, questionId, value);
    } else if answers != [] {
      assert Put(answers, questionId, value) == [Entry(questionId, value)] + answers[1..];
      assert ([Entry(questionId, value)] + answers[1..])[1..] == answers[1..];
    }
  }

  /** The points recorded for each item of `qs`, summed in item order. */
  function AnsweredPoints(qs: seq<Barthel.Question>, answers: Obj<int>): int
  {
    if qs == [] then 0 else PointsFor(answers, qs[0].id) + AnsweredPoints(qs[1..], answers)
  }

  /** Putting one more entry (under a key not yet used) in front of the
      answers adds its value once if its key is an item id, and nothing otherwise. */
  lemma {:induction false} AnsweredPointsCons(qs: seq<Barthel.Question>, e: Entry<int>, rest: Obj<int>)
    requires Barthel.Distinct(Barthel.Ids(qs))
    requires e.key !in Keys(rest)
    ensures AnsweredPoints(qs, [e] + rest) ==
            AnsweredPoints(qs, rest) + (if e.key in Barthel.Ids(qs) then e.value else 0)
  {
    if qs != [] {
      var ids := Barthel.Ids(qs);
      assert Barthel.Ids(qs[1..]) == ids[1..];
      assert Barthel.Distinct(ids[1..]);
      AnsweredPointsCons(qs[1..], e, rest);
      assert ([e] + rest)[1..] == rest;
      assert e.key in ids <==> e.key == qs[0].id || e.key in ids[1..];
      if e.key == qs[0].id {
        assert e.key !in ids[1..];
      }
    }
  }

  /** When every answer key is an item id, the score is the sum over the
      items of their recorded points: unanswered items add nothing. */
  lemma {:induction false} ScoreIsAnsweredPoints(qs: seq<Barthel.Question>, answers: Obj<int>)
    requires Barthel.Distinct(Barthel.Ids(qs))
    requires UniqueKeys(answers)
    requires forall i :: 0 <= i < |answers| ==> answers[i].key in Barthel.Ids(qs)
    ensures Score(answers) == AnsweredPoints(qs, answers)
  {
    if answers == [] {
      NoAnswersNoPoints(qs);
    } else {
      var rest := answers[1..];
      assert UniqueKeys(rest);
      ScoreIsAnsweredPoints(qs, rest);
      assert answers == [answers[0]] + rest;
      assert answers[0].key !in Keys(rest);
      AnsweredPointsCons(qs, answers[0], rest);
    }
  }

  /** With no answers every item contributes 0. */
  lemma {:induction false} NoAnswersNoPoints(qs: seq<Barthel.Question>)
    ensures AnsweredPoints(qs, []) == 0
  {
    if qs != [] {
      NoAnswersNoPoints(qs[1..]);
    }
  }

  /** `value` is the value of one of the item's options. */
  predicate ChosenFrom(q: Barthel.Question, value: int)
  {
    exists k :: 0 <= k < |q.options| && q.options[k].value == value
  }

  /** An answer object a form over the items `qs` can produce: one entry per
      answered item, keyed by an item id and holding one of that item's option values. */
  predicate ValidAnswers(qs: seq<Barthel.Question>, answers: Obj<int>)
  {
    && UniqueKeys(answers)
    && forall j :: 0 <= j < |answers| ==>
         exists i :: 0 <= i < |qs| && qs[i].id == answers[j].key && ChosenFrom(qs[i], answers[j].value)
  }

  /** Every item's recorded points, if any, are one of its option values. */
  predicate AnswersFit(qs: seq<Barthel.Question>, answers: Obj<int>)
  {
    forall i :: 0 <= i < |qs| && Get(answers, qs[i].id).Some? ==>
      ChosenFrom(qs[i], Get(answers, qs[i].id).value)
  }

  /** The recorded points over well-formed items lie between 0 and their maxima. */
  lemma {:induction false} AnsweredPointsBounds(qs: seq<Barthel.Question>, answers: Obj<int>)
    requires forall i :: 0 <= i < |qs| ==> Barthel.WellFormed(qs[i])
    requires AnswersFit(qs, answers)
    ensures 0 <= AnsweredPoints(qs, answers) <= Barthel.TotalMax(qs)
  {
    if qs != [] {
      var q := qs[0];
      assert AnswersFit(qs[1..], answers) by {
        forall i | 0 <= i < |qs[1..]| && Get(answers, qs[1..][i].id).Some?
          ensures ChosenFrom(qs[1..][i], Get(answers, qs[1..][i].id).value)
        {
          assert qs[1..][i] == qs[i + 1];
        }
      }
      AnsweredPointsBounds(qs[1..], answers);
      var got := Get(answers, q.id);
      if got.Some? {
        assert ChosenFrom(qs[0], got.value);
        var k :| 0 <= k < |q.options| && q.options[k].value == got.value;
        Barthel.MaxPointsIsMaximum(q, k);
      }
    }
  }

  /** Valid answers fit the items one by one, when the item ids are distinct. */
  lemma ValidAnswersFit(qs: seq<Barthel.Question>, answers: Obj<int>)
    requires Barthel.Distinct(Barthel.Ids(qs))
    requires ValidAnswers(qs, answers)
    ensures AnswersFit(qs, answers)
  {
    forall i | 0 <= i < |qs| && Get(answers, qs[i].id).Some?
      ensures ChosenFrom(qs[i], Get(answers, qs[i].id).value)
    {
      var j :| 0 <= j < |answers| && Keys(answers)[j] == qs[i].id;
      GetEntry(answers, j);
      var i' :| 0 <= i' < |qs| && qs[i'].id == answers[j].key && ChosenFrom(qs[i'], answers[j].value);
      assert Barthel.Ids(qs)[i] == Barthel.Ids(qs)[i'];
    }
  }

  /** Valid answers are keyed by item ids only. */
  lemma ValidAnswersKeys(qs: seq<Barthel.Question>, answers: Obj<int>)
    requires ValidAnswers(qs, answers)
    ensures forall j :: 0 <= j < |answers| ==> answers[j].key in Barthel.Ids(qs)
  {
    forall j | 0 <= j < |answers| ensures answers[j].key in Barthel.Ids(qs) {
      var i :| 0 <= i < |qs| && qs[i].id == answers[j].key && ChosenFrom(qs[i], answers[j].value);
      assert Barthel.Ids(qs)[i] == answers[j].key;
    }
  }

  /** Any answer object the Barthel form can produce, complete or partial,
      scores between 0 and 100. */
  lemma BarthelScoreRange(answers: Obj<int>)
    requires ValidAnswers(Barthel.Questions, answers)
    ensures 0 <= Score(answers) <= 100
  {
    var qs := Barthel.Questions;
    Barthel.CatalogueShape();
    Barthel.AllWellFormed();
    Barthel.TotalMaxIsHundred();
    ValidAnswersKeys(qs, answers);
    ScoreIsAnsweredPoints(qs, answers);
    ValidAnswersFit(qs, answers);
    AnsweredPointsBounds(qs, answers);
  }

  /** The answers that pick every item's first option. */
  function MaxAnswers(qs: seq<Barthel.Question>): Obj<int>
  {
    if qs == [] then [] else [Entry(qs[0].id, Barthel.MaxPoints(qs[0]))] + MaxAnswers(qs[1..])
  }

  /** Picking every item's first option scores the catalogue maximum. */
  lemma {:induction false} MaxAnswersScore(qs: seq<Barthel.Question>)
    ensures Score(MaxAnswers(qs)) == Barthel.TotalMax(qs)
  {
    if qs != [] {
      MaxAnswersScore(qs[1..]);
      assert MaxAnswers(qs)[1..] == MaxAnswers(qs[1..]);
    }
  }

  /** All-maximum Barthel answers give 100 and "Independencia completa";
      no answers at all give 0 and "Incapacidad funcional Severa". */
  lemma BarthelExtremes()
    ensures Score(MaxAnswers(Barthel.Questions)) == 100
    ensures Interpret("barthel", Score(MaxAnswers(Barthel.Questions))) == Independencia
    ensures Score([]) == 0 && Interpret("barthel", Score([])) == Severa
  {
    MaxAnswersScore(Barthel.Questions);
    Barthel.TotalMaxIsHundred();
  }

  /** The record `finishAssessment` hands to the local log: the draft with the
      computed score and interpretation, the placeholder id "" and the time. */
  function CompleteAssessment(d: Draft, score: int, interpretation: string, now: nat): LocalAssessments.Assessment
  {
    LocalAssessments.Assessment("", d.scaleId, d.patientData, d.answers, now, score, interpretation)
  }

  // ---------------------------------------------------------------------
  // The session

  /** The state the hook keeps for one scale: the draft, the step and the
      current question index. */
  class AssessmentSession {
    /** The id of the scale the hook was created for (`scale.id`). */
    const scaleId: string
    var assessment: Draft
    var step: Step
    var currentQuestion: int

    /** The draft's two objects hold each key once, as every JavaScript object does. */
    predicate Valid()
      reads this
    {
      UniqueKeys(assessment.patientData) && UniqueKeys(assessment.answers)
    }

    /** The initial state: empty patient fields, no answers, the form step, question 0. */
    constructor(scaleId: string)
      ensures this.scaleId == scaleId
      ensures assessment == InitialDraft(scaleId) && step == Form && currentQuestion == 0
      ensures Valid()
    {
      this.scaleId := scaleId;
      assessment := InitialDraft(scaleId);
      step := Form;
      currentQuestion := 0;
    }

    /** `updatePatientData`: set one patient field; nothing else changes. */
    method UpdatePatientData(field: string, value: string)
      requires Valid()
      modifies this
      ensures assessment == old(assessment).(patientData := Put(old(assessment.patientData), field, value))
      ensures step == old(step) && currentQuestion == old(currentQuestion)
      ensures Valid()
    {
      PutUnique(assessment.patientData, field, value);
      assessment := assessment.(patientData := Put(assessment.patientData, field, value));
    }

    /** `recordAnswer`: record the points for one question; nothing else changes. */
    method RecordAnswer(questionId: string, value: int)
      requires Valid()
      modifies this
      ensures assessment == old(assessment).(answers := Put(old(assessment.answers), questionId, value))
      ensures step == old(step) && currentQuestion == old(currentQuestion)
      ensures Valid()
      ensures Score(assessment.answers) ==
              Score(old(assessment.answers)) - PointsFor(old(assessment.answers), questionId) + value
    {
      PutUnique(assessment.answers, questionId, value);
      ScoreAfterAnswer(assessment.answers, questionId, value);
      assessment := assessment.(answers := Put(assessment.answers, questionId, value));
    }

    /** `calculateResult`: the score and interpretation of the current answers,
        also written into the draft. */
    method CalculateResult() returns (score: int, interpretation: string)
      requires Valid()
      modifies this
      ensures score == Score(old(assessment.answers))
      ensures interpretation == Interpret(scaleId, score)
      ensures assessment == old(assessment).(score := Some(score), interpretation := Some(interpretation))
      ensures step == old(step) && currentQuestion == old(currentQuestion)
      ensures Valid()
    {
      score := Score(assessment.answers);
      interpretation := Interpret(scaleId, score);
      assessment := assessment.(score := Some(score), interpretation := Some(interpretation));
    }

    /** `finishAssessment`: compute the result, save the completed record in
        the local log, then move to the results step. The save reports failure
        by its result, so the step changes whether or not it succeeded. */
    method FinishAssessment(storage: LocalAssessments.Storage, now: nat, suffix: string,
                            fault: LocalAssessments.Fault)
      requires Valid()
      modifies this, storage
      ensures var score := Score(old(assessment.answers));
              var interpretation := Interpret(scaleId, score);
              && assessment == old(assessment).(score := Some(score), interpretation := Some(interpretation))
              && storage.items == LocalAssessments.AfterSave(
                   old(storage.items), CompleteAssessment(old(assessment), score, interpretation, now),
                   now, suffix, fault)
      ensures step == Results && currentQuestion == old(currentQuestion)
      ensures Valid()
    {
      var draft := assessment;
      var score, interpretation := CalculateResult();
      var complete := CompleteAssessment(draft, score, interpretation, now);
      var _ := storage.SaveLocalAssessment(complete, now, suffix, fault);
      step := Results;
    }

    /** `resetAssessment`: back to the initial state of the same scale. */
    method ResetAssessment()
      modifies this
      ensures assessment == InitialDraft(scaleId) && step == Form && currentQuestion == 0
      ensures Valid()
    {
      assessment := InitialDraft(scaleId);
      step := Form;
      currentQuestion := 0;
    }

    /** The raw `setStep` setter the hook exposes. */
    method SetStep(s: Step)
      modifies this
      ensures step == s && assessment == old(assessment) && currentQuestion == old(currentQuestion)
    {
      step := s;
    }

    /** The raw `setCurrentQuestion` setter the hook exposes. */
    method SetCurrentQuestion(index: int)
      modifies this
      ensures currentQuestion == index && assessment == old(assessment) && step == old(step)
    {
      currentQuestion := index;
    }
  }
}
