/**
 The dashboard's own tables, 26 questions and 14 answers (each answer reduced
 to its description), and what the page does on them.
 */
module ReferenceData {
  import opened Wrappers
  import opened DecisionGraph
  import FlowQuestion

  /** A table entry that sets `yes` and `no` only, as every entry of the page does. */
  function Entry(text: string, yes: string, no: string): Question
  {
    Question(text, Some(yes), Some(no), None, None)
  }

  const Questions: map<string, Question> := map[
      "question1" := Entry("Is it a graph?", "question2", "question8"),
      "question2" := Entry("Is it a tree?", "answer1", "question3"),
      "question3" := Entry("Is the problem related to directed acyclic graphs?", "answer2", "question4"),
      "question4" := Entry("Is the problem related to shortest paths?", "question5", "question6"),
      "question5" := Entry("Is the graph Weighted?", "answer3", "answer4"),
      "question6" := Entry("Does the problem involve connectivity?", "answer5", "question7"),
      "question7" := Entry("Does the problem have small constraints?", "answer6", "answer4"),
      "question8" := Entry("Need to solve for kth smallest/largest?", "answer7", "question9"),
      "question9" := Entry("Involves Linked List?", "answer8", "question10"),
      "question10" := Entry("Small constraint bounds?", "question11", "question12"),
      "question11" := Entry("Is brute force fast enough?", "answer9", "answer10"),
      "question12" := Entry("About subarrays or substrings?", "question13", "question14"),
      "question13" := Entry("Deals with sums or additives", "answer11", "answer12"),
      "question14" := Entry("Calculating max/min of something?", "question2", "question18"),
      "question15" := Entry("Monotonic condition?", "answer13", "question16"),
      "question16" := Entry("Can be split into sub-components?", "answer10", "question17"),
      "question17" := Entry("Greedily calculate answer?", "answer14", "question8"),
      "question18" := Entry("Asking for number of ways?", "question19", "question20"),
      "question19" := Entry("Is brute force fast enough?", "answer9", "answer10"),
      "question20" := Entry("Multiple Sequences?", "question21", "question23"),
      "question21" := Entry("Monotonic conditions?", "answer8", "question1"),
      "question22" := Entry("Can split into sub-problems?", "answer10", "question1"),
      "question23" := Entry("Find or enumerate indices?", "question24", "question25"),
      "question24" := Entry("Monotonic condition?", "answer8", "question1"),
      "question25" := Entry("O(1) memory required", "question26", "question1"),
      "question26" := Entry("Involves monotonic condition?", "answer8", "question1")
    ]

  const Answers: map<string, Answer> := map[
      "answer1" := Answer("Depth First Search"),
      "answer2" := Answer("Topological Sort"),
      "answer3" := Answer("Dijkstra's Algorithm"),
      "answer4" := Answer("Breadth First Search"),
      "answer5" := Answer("Disjoint Set Union"),
      "answer6" := Answer("DFS / Backtracking"),
      "answer7" := Answer("Heap / Sortings"),
      "answer8" := Answer("Two Pointers"),
      "answer9" := Answer("Brute force / Backtracking"),
      "answer10" := Answer("Dynamic Programming"),
      "answer11" := Answer("Prefix sums"),
      "answer12" := Answer("Sliding Window"),
      "answer13" := Answer("Binary Search"),
      "answer14" := Answer("Greedy Algorithms")
    ]

  const Flow: Graph := Graph(Questions, Answers)

  /** An entry as the page writes every question: truthy `yes` and `no`, no
      fallback, and both targets nodes of the tables other than the two
      questions no entry names. */
  predicate SoundEntry(q: Question)
  {
    && q.yesAnswer == None && q.noAnswer == None
    && FlowQuestion.Truthy(q.yes) && FlowQuestion.Truthy(q.no)
    && IsNode(Flow, q.yes.value) && IsNode(Flow, q.no.value)
    && q.yes.value != "question15" && q.yes.value != "question22"
    && q.no.value != "question15" && q.no.value != "question22"
  }

  /* Soundness of the question table, one lemma per entry. A single lemma
     quantifying over all 26 keys states the same thing (`SoundQuestions` below
     is that lemma), but a proof that looks up every entry of the large map
     display at once is too costly for the solver. So each entry gets its own
     small lemma, which also pins the entry's two targets. The range
     predicates and `KeyInSomePart` only route an arbitrary key to the lemma
     for its entry. */

  lemma SoundQuestion1()
    ensures "question1" in Questions && SoundEntry(Questions["question1"])
    ensures Questions["question1"].yes == Some("question2") && Questions["question1"].no == Some("question8")
  {
  }

  lemma SoundQuestion2()
    ensures "question2" in Questions && SoundEntry(Questions["question2"])
    ensures Questions["question2"].yes == Some("answer1") && Questions["question2"].no == Some("question3")
  {
  }

  lemma SoundQuestion3()
    ensures "question3" in Questions && SoundEntry(Questions["question3"])
    ensures Questions["question3"].yes == Some("answer2") && Questions["question3"].no == Some("question4")
  {
  }

  lemma SoundQuestion4()
    ensures "question4" in Questions && SoundEntry(Questions["question4"])
    ensures Questions["question4"].yes == Some("question5") && Questions["question4"].no == Some("question6")
  {
  }

  lemma SoundQuestion5()
    ensures "question5" in Questions && SoundEntry(Questions["question5"])
    ensures Questions["question5"].yes == Some("answer3") && Questions["question5"].no == Some("answer4")
  {
  }

  lemma SoundQuestion6()
    ensures "question6" in Questions && SoundEntry(Questions["question6"])
    ensures Questions["question6"].yes == Some("answer5") && Questions["question6"].no == Some("question7")
  {
  }

  lemma SoundQuestion7()
    ensures "question7" in Questions && SoundEntry(Questions["question7"])
    ensures Questions["question7"].yes == Some("answer6") && Questions["question7"].no == Some("answer4")
  {
  }

  lemma SoundQuestion8()
    ensures "question8" in Questions && SoundEntry(Questions["question8"])
    ensures Questions["question8"].yes == Some("answer7") && Questions["question8"].no == Some("question9")
  {
  }

  lemma SoundQuestion9()
    ensures "question9" in Questions && SoundEntry(Questions["question9"])
    ensures Questions["question9"].yes == Some("answer8") && Questions["question9"].no == Some("question10")
  {
  }

  lemma SoundQuestion10()
    ensures "question10" in Questions && SoundEntry(Questions["question10"])
    ensures Questions["question10"].yes == Some("question11") && Questions["question10"].no == Some("question12")
  {
  }

  lemma SoundQuestion11()
    ensures "question11" in Questions && SoundEntry(Questions["question11"])
    ensures Questions["question11"].yes == Some("answer9") && Questions["question11"].no == Some("answer10")
  {
  }

  lemma SoundQuestion12()
    ensures "question12" in Questions && SoundEntry(Questions["question12"])
    ensures Questions["question12"].yes == Some("question13") && Questions["question12"].no == Some("question14")
  {
  }

  lemma SoundQuestion13()
    ensures "question13" in Questions && SoundEntry(Questions["question13"])
    ensures Questions["question13"].yes == Some("answer11") && Questions["question13"].no == Some("answer12")
  {
  }

  lemma SoundQuestion14()
    ensures "question14" in Questions && SoundEntry(Questions["question14"])
    ensures Questions["question14"].yes == Some("question2") && Questions["question14"].no == Some("question18")
  {
  }

  lemma SoundQuestion15()
    ensures "question15" in Questions && SoundEntry(Questions["question15"])
    ensures Questions["question15"].yes == Some("answer13") && Questions["question15"].no == Some("question16")
  {
  }

  lemma SoundQuestion16()
    ensures "question16" in Questions && SoundEntry(Questions["question16"])
    ensures Questions["question16"].yes == Some("answer10") && Questions["question16"].no == Some("question17")
  {
  }

  lemma SoundQuestion17()
    ensures "question17" in Questions && SoundEntry(Questions["question17"])
    ensures Questions["question17"].yes == Some("answer14") && Questions["question17"].no == Some("question8")
  {
  }

  lemma SoundQuestion18()
    ensures "question18" in Questions && SoundEntry(Questions["question18"])
    ensures Questions["question18"].yes == Some("question19") && Questions["question18"].no == Some("question20")
  {
  }

  lemma SoundQuestion19()
    ensures "question19" in Questions && SoundEntry(Questions["question19"])
    ensures Questions["question19"].yes == Some("answer9") && Questions["question19"].no == Some("answer10")
  {
  }

  lemma SoundQuestion20()
    ensures "question20" in Questions && SoundEntry(Questions["question20"])
    ensures Questions["question20"].yes == Some("question21") && Questions["question20"].no == Some("question23")
  {
  }

  lemma SoundQuestion21()
    ensures "question21" in Questions && SoundEntry(Questions["question21"])
    ensures Questions["question21"].yes == Some("answer8") && Questions["question21"].no == Some("question1")
  {
  }

  lemma SoundQuestion22()
    ensures "question22" in Questions && SoundEntry(Questions["question22"])
    ensures Questions["question22"].yes == Some("answer10") && Questions["question22"].no == Some("question1")
  {
  }

  lemma SoundQuestion23()
    ensures "question23" in Questions && SoundEntry(Questions["question23"])
    ensures Questions["question23"].yes == Some("question24") && Questions["question23"].no == Some("question25")
  {
  }

  lemma SoundQuestion24()
    ensures "question24" in Questions && SoundEntry(Questions["question24"])
    ensures Questions["question24"].yes == Some("answer8") && Questions["question24"].no == Some("question1")
  {
  }

  lemma SoundQuestion25()
    ensures "question25" in Questions && SoundEntry(Questions["question25"])
    ensures Questions["question25"].yes == Some("question26") && Questions["question25"].no == Some("question1")
  {
  }

  lemma SoundQuestion26()
    ensures "question26" in Questions && SoundEntry(Questions["question26"])
    ensures Questions["question26"].yes == Some("answer8") && Questions["question26"].no == Some("question1")
  {
  }

  predicate InQuestions1To7(id: string)
  {
    id == "question1" || id == "question2" || id == "question3" || id == "question4" ||
    id == "question5" || id == "question6" || id == "question7"
  }

  predicate InQuestions8To13(id: string)
  {
    id == "question8" || id == "question9" || id == "question10" || id == "question11" ||
    id == "question12" || id == "question13"
  }

  predicate InQuestions14To20(id: string)
  {
    id == "question14" || id == "question15" || id == "question16" || id == "question17" ||
    id == "question18" || id == "question19" || id == "question20"
  }

  predicate InQuestions21To26(id: string)
  {
    id == "question21" || id == "question22" || id == "question23" || id == "question24" ||
    id == "question25" || id == "question26"
  }

  lemma SoundQuestions1To7(id: string)
    requires InQuestions1To7(id)
    ensures id in Questions && SoundEntry(Questions[id])
  {
    if id == "question1" {
      SoundQuestion1();
    } else if id == "question2" {
      SoundQuestion2();
    } else if id == "question3" {
      SoundQuestion3();
    } else if id == "question4" {
      SoundQuestion4();
    } else if id == "question5" {
      SoundQuestion5();
    } else if id == "question6" {
      SoundQuestion6();
    } else {
      SoundQuestion7();
    }
  }

  lemma SoundQuestions8To13(id: string)
    requires InQuestions8To13(id)
    ensures id in Questions && SoundEntry(Questions[id])
  {
    if id == "question8" {
      SoundQuestion8();
    } else if id == "question9" {
      SoundQuestion9();
    } else if id == "question10" {
      SoundQuestion10();
    } else if id == "question11" {
      SoundQuestion11();
    } else if id == "question12" {
      SoundQuestion12();
    } else {
      SoundQuestion13();
    }
  }

  lemma SoundQuestions14To20(id: string)
    requires InQuestions14To20(id)
    ensures id in Questions && SoundEntry(Questions[id])
  {
    if id == "question14" {
      SoundQuestion14();
    } else if id == "question15" {
      SoundQuestion15();
    } else if id == "question16" {
      SoundQuestion16();
    } else if id == "question17" {
      SoundQuestion17();
    } else if id == "question18" {
      SoundQuestion18();
    } else if id == "question19" {
      SoundQuestion19();
    } else {
      SoundQuestion20();
    }
  }

  lemma SoundQuestions21To26(id: string)
    requires InQuestions21To26(id)
    ensures id in Questions && SoundEntry(Questions[id])
  {
    if id == "question21" {
      SoundQuestion21();
    } else if id == "question22" {
      SoundQuestion22();
    } else if id == "question23" {
      SoundQuestion23();
    } else if id == "question24" {
      SoundQuestion24();
    } else if id == "question25" {
      SoundQuestion25();
    } else {
      SoundQuestion26();
    }
  }

  lemma KeyInSomePart(id: string)
    requires id in Questions
    ensures InQuestions1To7(id) ||
            InQuestions8To13(id) ||
            InQuestions14To20(id) ||
            InQuestions21To26(id)
  {
  }

  /** One entry of the question table is sound, so both its buttons show and
      emit its `yes` and `no` entries. */
  lemma SoundQuestion(id: string)
    requires id in Questions
    ensures SoundEntry(Questions[id])
    ensures YesTarget(Questions[id]) == Questions[id].yes
    ensures NoTarget(Questions[id]) == Questions[id].no
  {
    KeyInSomePart(id);
    if InQuestions1To7(id) {
      SoundQuestions1To7(id);
    } else if InQuestions8To13(id) {
      SoundQuestions8To13(id);
    } else if InQuestions14To20(id) {
      SoundQuestions14To20(id);
    } else {
      SoundQuestions21To26(id);
    }
  }

  /** Every entry of the question table is sound. */
  lemma SoundQuestions()
    ensures forall id :: id in Questions ==> SoundEntry(Questions[id])
  {
    forall id | id in Questions
      ensures SoundEntry(Questions[id])
    {
      SoundQuestion(id);
    }
  }

  /** Question ids start with `q`. */
  lemma QuestionIdsStartWithQ()
    ensures forall id :: id in Questions ==> |id| > 0 && id[0] == 'q'
  {
  }

  /** Answer ids start with `a`. */
  lemma AnswerIdsStartWithA()
    ensures forall id :: id in Answers ==> |id| > 0 && id[0] == 'a'
  {
  }

  /** No answer id is a question id. */
  lemma KindsAreDisjoint()
    ensures KindsDisjoint(Flow)
  {
    QuestionIdsStartWithQ();
    AnswerIdsStartWithA();
  }

  /** No edge dangles, no id is both a question and an answer, and the root is a question. */
  lemma FlowIsValid()
    ensures ValidGraph(Flow)
    ensures Root in Flow.questions
  {
    forall id | id in Flow.questions
      ensures Resolves(Flow, YesTarget(Flow.questions[id])) && Resolves(Flow, NoTarget(Flow.questions[id]))
    {
      SoundQuestion(id);
    }
    KindsAreDisjoint();
  }

  /** Each question shows both buttons, and they emit its `yes` and `no` entries. */
  lemma BothButtonsEverywhere(id: string)
    requires id in Questions
    ensures YesTarget(Questions[id]) == Questions[id].yes && Questions[id].yes.Some?
    ensures NoTarget(Questions[id]) == Questions[id].no && Questions[id].no.Some?
  {
    SoundQuestion(id);
  }

  /** `question15` and `question22` are named by no button. */
  lemma OrphansAreNotTargets()
    ensures "question15" in Questions && !IsTarget(Flow, "question15")
    ensures "question22" in Questions && !IsTarget(Flow, "question22")
  {
    forall src | src in Flow.questions
      ensures YesTarget(Flow.questions[src]) != Some("question15")
      ensures NoTarget(Flow.questions[src]) != Some("question15")
      ensures YesTarget(Flow.questions[src]) != Some("question22")
      ensures NoTarget(Flow.questions[src]) != Some("question22")
    {
      SoundQuestion(src);
    }
  }

  /** On the page's tables, Yes and No from a question move to its `yes` and
      `no` entries and keep the selection. */
  lemma StepOnFlowQuestion(s: State)
    requires s.currentId in Questions
    requires s.selectedAnswer.Some? ==> s.selectedAnswer.value in Answers
    ensures Questions[s.currentId].yes.Some? && Questions[s.currentId].no.Some?
    ensures Step(Flow, s, ClickYes) == Some(s.(currentId := Questions[s.currentId].yes.value))
    ensures Step(Flow, s, ClickNo) == Some(s.(currentId := Questions[s.currentId].no.value))
  {
    BothButtonsEverywhere(s.currentId);
    StepOnQuestion(Flow, s, Questions[s.currentId]);
  }

  /** An answer id with nothing selected shows its technique name. */
  lemma AnswerShown(id: string)
    requires id in Answers
    ensures Render(Flow, State(id, None)) == Some(View(None, AnswerScreen(Answers[id].description)))
  {
    KindsAreDisjoint();
    StepOnAnswer(Flow, State(id, None));
  }

  /** A click on a question's button, with nothing selected, on the page's tables. */
  lemma FlowStep(id: string, e: Event, target: string)
    requires id in Questions
    requires e == ClickYes ==> Questions[id].yes == Some(target)
    requires e == ClickNo ==> Questions[id].no == Some(target)
    requires e == ClickYes || e == ClickNo
    ensures Step(Flow, State(id, None), e) == Some(State(target, None))
  {
    StepOnFlowQuestion(State(id, None));
  }

  /* The edges the traces below take, one lemma each. */

  lemma Question1Yes()
    ensures Step(Flow, Init, ClickYes) == Some(State("question2", None))
  {
    FlowStep("question1", ClickYes, "question2");
  }

  lemma Question2Yes()
    ensures Step(Flow, State("question2", None), ClickYes) == Some(State("answer1", None))
  {
    FlowStep("question2", ClickYes, "answer1");
  }

  lemma Question1No()
    ensures Step(Flow, Init, ClickNo) == Some(State("question8", None))
  {
    FlowStep("question1", ClickNo, "question8");
  }

  lemma Question8No()
    ensures Step(Flow, State("question8", None), ClickNo) == Some(State("question9", None))
  {
    FlowStep("question8", ClickNo, "question9");
  }

  lemma Question9Yes()
    ensures Step(Flow, State("question9", None), ClickYes) == Some(State("answer8", None))
  {
    FlowStep("question9", ClickYes, "answer8");
  }

  lemma Question5Yes()
    ensures Step(Flow, State("question5", None), ClickYes) == Some(State("answer3", None))
  {
    FlowStep("question5", ClickYes, "answer3");
  }

  lemma Question5No()
    ensures Step(Flow, State("question5", None), ClickNo) == Some(State("answer4", None))
  {
    FlowStep("question5", ClickNo, "answer4");
  }

  lemma Question9No()
    ensures Step(Flow, State("question9", None), ClickNo) == Some(State("question10", None))
  {
    FlowStep("question9", ClickNo, "question10");
  }

  lemma Question10No()
    ensures Step(Flow, State("question10", None), ClickNo) == Some(State("question12", None))
  {
    FlowStep("question10", ClickNo, "question12");
  }

  lemma Question12No()
    ensures Step(Flow, State("question12", None), ClickNo) == Some(State("question14", None))
  {
    FlowStep("question12", ClickNo, "question14");
  }

  lemma Question14No()
    ensures Step(Flow, State("question14", None), ClickNo) == Some(State("question18", None))
  {
    FlowStep("question14", ClickNo, "question18");
  }

  lemma Question18No()
    ensures Step(Flow, State("question18", None), ClickNo) == Some(State("question20", None))
  {
    FlowStep("question18", ClickNo, "question20");
  }

  lemma Question20Yes()
    ensures Step(Flow, State("question20", None), ClickYes) == Some(State("question21", None))
  {
    FlowStep("question20", ClickYes, "question21");
  }

  lemma Question21No()
    ensures Step(Flow, State("question21", None), ClickNo) == Some(Init)
  {
    FlowStep("question21", ClickNo, "question1");
  }

  lemma Question17No()
    ensures Step(Flow, State("question17", None), ClickNo) == Some(State("question8", None))
  {
    FlowStep("question17", ClickNo, "question8");
  }

  /** From the root, Yes then Yes reaches `answer1`. */
  lemma DepthFirstSearchTrace()
    ensures Run(Flow, Init, [ClickYes, ClickYes]) == Some(State("answer1", None))
  {
    Question1Yes();
    Question2Yes();
    RunTwo(Flow, Init, ClickYes, State("question2", None), ClickYes, State("answer1", None));
  }

  /** From the root, No, No, Yes reaches `answer8`. */
  lemma TwoPointersTrace()
    ensures Run(Flow, Init, [ClickNo, ClickNo, ClickYes]) == Some(State("answer8", None))
  {
    Question1No();
    Question8No();
    Question9Yes();
    RunThree(Flow, Init, ClickNo, State("question8", None), ClickNo, State("question9", None),
             ClickYes, State("answer8", None));
  }

  /** At `question5`, Yes leads to `answer3` and No to `answer4`. */
  lemma WeightedGraphTraces()
    ensures Run(Flow, State("question5", None), [ClickYes]) == Some(State("answer3", None))
    ensures Run(Flow, State("question5", None), [ClickNo]) == Some(State("answer4", None))
  {
    Question5Yes();
    Question5No();
    RunOne(Flow, State("question5", None), ClickYes);
    RunOne(Flow, State("question5", None), ClickNo);
  }

  /* The screens at the ends of those traces. */

  lemma DepthFirstSearchScreen()
    ensures Render(Flow, State("answer1", None)) == Some(View(None, AnswerScreen("Depth First Search")))
  {
    AnswerShown("answer1");
  }

  lemma TwoPointersScreen()
    ensures Render(Flow, State("answer8", None)) == Some(View(None, AnswerScreen("Two Pointers")))
  {
    AnswerShown("answer8");
  }

  lemma DijkstraScreen()
    ensures Render(Flow, State("answer3", None)) == Some(View(None, AnswerScreen("Dijkstra's Algorithm")))
  {
    AnswerShown("answer3");
  }

  lemma BreadthFirstSearchScreen()
    ensures Render(Flow, State("answer4", None)) == Some(View(None, AnswerScreen("Breadth First Search")))
  {
    AnswerShown("answer4");
  }

  lemma RootToQuestion10()
    ensures Run(Flow, Init, ThreeNoes) == Some(State("question10", None))
  {
    Question1No();
    Question8No();
    Question9No();
    RunThree(Flow, Init, ClickNo, State("question8", None), ClickNo, State("question9", None),
             ClickNo, State("question10", None));
  }

  lemma Question10ToQuestion18()
    ensures Run(Flow, State("question10", None), ThreeNoes) == Some(State("question18", None))
  {
    Question10No();
    Question12No();
    Question14No();
    RunThree(Flow, State("question10", None), ClickNo, State("question12", None), ClickNo, State("question14", None),
             ClickNo, State("question18", None));
  }

  lemma Question18ToRoot()
    ensures Run(Flow, State("question18", None), BackToRoot) == Some(Init)
  {
    Question18No();
    Question20Yes();
    Question21No();
    RunThree(Flow, State("question18", None), ClickNo, State("question20", None), ClickYes, State("question21", None),
             ClickNo, Init);
  }

  /** Three Noes: from the root to `question10`, and from `question10` to `question18`. */
  const ThreeNoes: seq<Event> := [ClickNo, ClickNo, ClickNo]

  /** No, Yes, No: from `question18` through `question20` and `question21` back to the root. */
  const BackToRoot: seq<Event> := [ClickNo, ClickYes, ClickNo]

  /** The graph has cycles: seven Noes, a Yes and a No lead from the root back
      to the root, and `question17`'s No leads back to `question8`. */
  lemma Cycles()
    ensures Run(Flow, Init, ThreeNoes + ThreeNoes + BackToRoot) == Some(Init)
    ensures Run(Flow, State("question17", None), [ClickNo]) == Some(State("question8", None))
  {
    RootToQuestion10();
    Question10ToQuestion18();
    Question18ToRoot();
    RunThen(Flow, Init, ThreeNoes, State("question10", None), ThreeNoes, State("question18", None));
    RunThen(Flow, Init, ThreeNoes + ThreeNoes, State("question18", None), BackToRoot, Init);
    Question17No();
    RunOne(Flow, State("question17", None), ClickNo);
  }

  /** The root is a question: no description to open and no Restart. */
  lemma RootHasNoDetails()
    ensures Step(Flow, Init, ClickDescription) == None
    ensures Step(Flow, Init, ClickRestart) == None
  {
    StepOnQuestion(Flow, Init, Questions[Root]);
  }

  /** After reaching "Depth First Search", Restart returns to the initial
      state, whose screen `RootPrompt` describes. */
  lemma RestartAfterAnswer()
    ensures Run(Flow, Init, [ClickYes, ClickYes, ClickRestart]) == Some(Init)
  {
    Question1Yes();
    Question2Yes();
    RestartFromAnswer1();
    RunThree(Flow, Init, ClickYes, State("question2", None), ClickYes, State("answer1", None),
             ClickRestart, Init);
  }

  lemma RestartFromAnswer1()
    ensures Step(Flow, State("answer1", None), ClickRestart) == Some(Init)
  {
    KindsAreDisjoint();
    assert "answer1" in Answers;
    StepOnAnswer(Flow, State("answer1", None));
  }

  /** The root question asks whether the problem is about a graph. */
  lemma RootQuestionText()
    ensures Root in Questions && Questions[Root].text == "Is it a graph?"
  {
  }

  /** The root question's Yes button leads to `question2` and its No button to `question8`. */
  lemma RootButtons()
    ensures Root in Questions
    ensures YesTarget(Questions[Root]) == Some("question2")
    ensures NoTarget(Questions[Root]) == Some("question8")
  {
  }

  /** The root question's screen: its prompt's lines and both buttons. */
  lemma RootPrompt()
    ensures Render(Flow, Init) == Some(View(None, QuestionScreen(
              FlowQuestion.Lines(Questions[Root].text), Some("question2"), Some("question8"))))
  {
    RootButtons();
    QuestionShown(Flow, Init, Questions[Root]);
  }

  /** Whatever the user clicks, the page renders, and it never shows
      `question15` or `question22`. */
  lemma ReachableSessions(es: seq<Event>)
    ensures Run(Flow, Init, es).Some? ==> Render(Flow, Run(Flow, Init, es).value).Some?
    ensures Run(Flow, Init, es).Some? ==>
      Run(Flow, Init, es).value.currentId != "question15" &&
      Run(Flow, Init, es).value.currentId != "question22"
  {
    FlowIsValid();
    ReachableRenders(Flow, es);
    OrphansAreNotTargets();
    RunStaysOnTargets(Flow, Init, es);
  }
}
