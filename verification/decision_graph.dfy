/**
 The dashboard page: a question table and an answer table, and a session of two
 values, the current node id and the answer whose details are open. The page
 renders the current node; the controls on screen are the only way to change
 the session, and each click is one atomic transition.
 */
module DecisionGraph {
  import opened Wrappers
  import FlowQuestion

  /** A question: its prompt and the ids its Yes and No buttons lead to. The
      `yesAnswer`/`noAnswer` fields are declared and passed on to the buttons
      as fallbacks, though no table entry sets them. */
  datatype Question = Question(
    text: string,
    yes: Option<string>,
    no: Option<string>,
    yesAnswer: Option<string>,
    noAnswer: Option<string>)

  /** An answer, reduced to its technique name. */
  datatype Answer = Answer(description: string)

  /** The two static tables, keyed by node id. */
  datatype Graph = Graph(questions: map<string, Question>, answers: map<string, Answer>)

  /** The id the session starts at and Restart returns to. */
  const Root: string := "question1"

  /** The buttons the question component renders for `q`, from the four props
      the page passes it. */
  function ButtonsOf(q: Question): FlowQuestion.Buttons
  {
    FlowQuestion.QuestionButtons(q.yes, q.no, q.yesAnswer, q.noAnswer)
  }

  /** The id the Yes button of `q` emits, if that button is shown. */
  function YesTarget(q: Question): Option<string>
  {
    ButtonsOf(q).yes
  }

  /** The id the No button of `q` emits, if that button is shown. */
  function NoTarget(q: Question): Option<string>
  {
    ButtonsOf(q).no
  }

  predicate IsNode(g: Graph, id: string)
  {
    id in g.questions || id in g.answers
  }

  predicate Resolves(g: Graph, target: Option<string>)
  {
    target.Some? ==> IsNode(g, target.value)
  }

  /** Every button target names a question or an answer. */
  predicate NoDanglingEdges(g: Graph)
  {
    forall id :: id in g.questions ==>
      Resolves(g, YesTarget(g.questions[id])) && Resolves(g, NoTarget(g.questions[id]))
  }

  predicate KindsDisjoint(g: Graph)
  {
    g.questions.Keys !! g.answers.Keys
  }

  predicate ValidGraph(g: Graph)
  {
    IsNode(g, Root) && NoDanglingEdges(g) && KindsDisjoint(g)
  }

  /** `id` is emitted by the Yes or No button of some question. */
  predicate IsTarget(g: Graph, id: string)
  {
    exists src :: src in g.questions &&
      (YesTarget(g.questions[src]) == Some(id) || NoTarget(g.questions[src]) == Some(id))
  }

  datatype Node = QuestionNode(question: Question) | AnswerNode(answer: Answer) | UnknownNode

  /** The page's classification: the question table first, then the answer table. */
  function Classify(g: Graph, id: string): Node
  {
    if id in g.questions then QuestionNode(g.questions[id])
    else if id in g.answers then AnswerNode(g.answers[id])
    else UnknownNode
  }

  /** The same lookup with the tables consulted in the other order. */
  function ClassifyAnswerFirst(g: Graph, id: string): Node
  {
    if id in g.answers then AnswerNode(g.answers[id])
    else if id in g.questions then QuestionNode(g.questions[id])
    else UnknownNode
  }

  /** The order of the lookup is irrelevant exactly when no id is in both tables,
      so with disjoint tables every id has one classification. */
  lemma ClassificationIsUnambiguous(g: Graph)
    ensures KindsDisjoint(g) <==> forall id :: Classify(g, id) == ClassifyAnswerFirst(g, id)
  {
    if !KindsDisjoint(g) {
      var id :| id in g.questions && id in g.answers;
      assert Classify(g, id).QuestionNode? && ClassifyAnswerFirst(g, id).AnswerNode?;
    }
  }

  /** Only ids in neither table are unknown. */
  lemma UnknownOnlyOffGraph(g: Graph, id: string)
    ensures Classify(g, id).UnknownNode? <==> !IsNode(g, id)
    ensures Classify(g, id).AnswerNode? ==> id in g.answers && Classify(g, id).answer == g.answers[id]
  {
  }

  /** The session: `currentId` and `selectedAnswer`. */
  datatype State = State(currentId: string, selectedAnswer: Option<string>)

  const Init: State := State(Root, None)

  /** `handleAnswer(nextId)`: `setCurrentId(nextId)`. */
  function HandleAnswer(s: State, nextId: string): State
  {
    s.(currentId := nextId)
  }

  /** The Restart button: `setCurrentId("question1")`. */
  function Restart(s: State): State
  {
    s.(currentId := Root)
  }

  /** A click on the answer's description: `setSelectedAnswer(currentId)`. */
  function SelectAnswer(s: State): State
  {
    s.(selectedAnswer := Some(s.currentId))
  }

  /** The details' Close button: `setSelectedAnswer(null)`. */
  function CloseDetails(s: State): State
  {
    s.(selectedAnswer := None)
  }

  /** What is on screen below the details overlay. */
  datatype Screen =
    | QuestionScreen(lines: seq<string>, yesButton: Option<string>, noButton: Option<string>)
    | AnswerScreen(description: string)

  /** The rendered page: the description shown in the details overlay, if any,
      and the screen. */
  datatype View = View(details: Option<string>, screen: Screen)

  /** The page's render. `None` is the TypeError of reading `.description` of an
      undefined table entry, either for the overlay or for the answer screen. */
  function Render(g: Graph, s: State): Option<View>
  {
    if FlowQuestion.Truthy(s.selectedAnswer) && s.selectedAnswer.value !in g.answers then None
    else
      var details :=
        if FlowQuestion.Truthy(s.selectedAnswer) then Some(g.answers[s.selectedAnswer.value].description)
        else None;
      match Classify(g, s.currentId)
      case QuestionNode(q) =>
        Some(View(details, QuestionScreen(FlowQuestion.Lines(q.text), YesTarget(q), NoTarget(q))))
      case AnswerNode(a) => Some(View(details, AnswerScreen(a.description)))
      case UnknownNode => None
  }

  /** The user's clicks. */
  datatype Event = ClickYes | ClickNo | ClickDescription | ClickRestart | ClickClose

  /** The control `e` clicks is on screen in `v`. */
  predicate Available(v: View, e: Event)
  {
    match e
    case ClickYes => v.screen.QuestionScreen? && v.screen.yesButton.Some?
    case ClickNo => v.screen.QuestionScreen? && v.screen.noButton.Some?
    case ClickDescription => v.screen.AnswerScreen?
    case ClickRestart => v.screen.AnswerScreen?
    case ClickClose => v.details.Some?
  }

  /** One click: `None` when the page does not render or the clicked control is
      not on screen. */
  function Step(g: Graph, s: State, e: Event): Option<State>
  {
    match Render(g, s)
    case None => None
    case Some(v) =>
      if !Available(v, e) then None
      else
        match e
        case ClickYes => Some(HandleAnswer(s, v.screen.yesButton.value))
        case ClickNo => Some(HandleAnswer(s, v.screen.noButton.value))
        case ClickDescription => Some(SelectAnswer(s))
        case ClickRestart => Some(Restart(s))
        case ClickClose => Some(CloseDetails(s))
  }

  /** A sequence of clicks, stopping at the first that cannot happen. */
  function Run(g: Graph, s: State, es: seq<Event>): Option<State>
    decreases |es|
  {
    if |es| == 0 then Some(s)
    else
      match Step(g, s, es[0])
      case None => None
      case Some(t) => Run(g, t, es[1..])
  }

  /** A single click run on its own is one step. */
  lemma RunOne(g: Graph, s: State, e: Event)
    ensures Run(g, s, [e]) == Step(g, s, e)
  {
    assert [e][1..] == [];
  }

  /** Running two click sequences one after the other is running their concatenation. */
  lemma {:induction false} RunAppend(g: Graph, s: State, a: seq<Event>, b: seq<Event>)
    ensures Run(g, s, a + b) == if Run(g, s, a).Some? then Run(g, Run(g, s, a).value, b) else None
    decreases |a|
  {
    if |a| == 0 {
      assert a + b == b;
    } else {
      assert (a + b)[0] == a[0];
      assert (a + b)[1..] == a[1..] + b;
      if Step(g, s, a[0]).Some? {
        RunAppend(g, Step(g, s, a[0]).value, a[1..], b);
      }
    }
  }

  /** Two clicks that each succeed make a run of two clicks. */
  lemma RunTwo(g: Graph, s: State, e1: Event, t: State, e2: Event, u: State)
    requires Step(g, s, e1) == Some(t) && Step(g, t, e2) == Some(u)
    ensures Run(g, s, [e1, e2]) == Some(u)
  {
    assert [e1, e2][1..] == [e2];
    RunOne(g, t, e2);
  }

  /** Three clicks that each succeed make a run of three clicks. */
  lemma RunThree(g: Graph, s: State, e1: Event, t: State, e2: Event, u: State, e3: Event, v: State)
    requires Step(g, s, e1) == Some(t) && Step(g, t, e2) == Some(u) && Step(g, u, e3) == Some(v)
    ensures Run(g, s, [e1, e2, e3]) == Some(v)
  {
    assert [e1, e2, e3][1..] == [e2, e3];
    RunTwo(g, t, e2, u, e3, v);
  }

  /** Two runs that meet compose into one run. */
  lemma RunThen(g: Graph, s: State, a: seq<Event>, t: State, b: seq<Event>, u: State)
    requires Run(g, s, a) == Some(t) && Run(g, t, b) == Some(u)
    ensures Run(g, s, a + b) == Some(u)
  {
    RunAppend(g, s, a, b);
  }

  /** The session invariant: the current id is a node, and an open answer is an answer. */
  predicate Inv(g: Graph, s: State)
  {
    IsNode(g, s.currentId) && (s.selectedAnswer.Some? ==> s.selectedAnswer.value in g.answers)
  }

  lemma InitSatisfiesInv(g: Graph)
    requires ValidGraph(g)
    ensures Inv(g, Init)
    ensures Init.currentId == "question1" && Init.selectedAnswer == None
  {
  }

  /** Under the invariant the page always renders, so no undefined entry is read. */
  lemma InvRenders(g: Graph, s: State)
    requires Inv(g, s)
    ensures Render(g, s).Some?
  {
  }

  /** Under the invariant a click fails exactly when its control is not on screen. */
  lemma StepFailsOnlyOffScreen(g: Graph, s: State, e: Event)
    requires Inv(g, s)
    ensures Render(g, s).Some?
    ensures Step(g, s, e).Some? <==> Available(Render(g, s).value, e)
  {
  }

  /** Every click keeps the invariant. */
  lemma StepPreservesInv(g: Graph, s: State, e: Event)
    requires ValidGraph(g)
    requires Inv(g, s)
    ensures Step(g, s, e).Some? ==> Inv(g, Step(g, s, e).value)
  {
  }

  /** Every sequence of clicks keeps the invariant. */
  lemma {:induction false} RunPreservesInv(g: Graph, s: State, es: seq<Event>)
    requires ValidGraph(g)
    requires Inv(g, s)
    ensures Run(g, s, es).Some? ==> Inv(g, Run(g, s, es).value)
    decreases |es|
  {
    if |es| > 0 {
      StepPreservesInv(g, s, es[0]);
      if Step(g, s, es[0]).Some? {
        RunPreservesInv(g, Step(g, s, es[0]).value, es[1..]);
      }
    }
  }

  /** From the start, whatever the user clicks, the page renders. */
  lemma ReachableRenders(g: Graph, es: seq<Event>)
    requires ValidGraph(g)
    ensures Run(g, Init, es).Some? ==> Inv(g, Run(g, Init, es).value)
    ensures Run(g, Init, es).Some? ==> Render(g, Run(g, Init, es).value).Some?
  {
    RunPreservesInv(g, Init, es);
  }

  /** Yes and No are `handleAnswer` with the current question's button target:
      `currentId` becomes that target and `selectedAnswer` is kept. */
  lemma ChoiceFollowsEdge(g: Graph, s: State, e: Event)
    requires e == ClickYes || e == ClickNo
    ensures Step(g, s, e).Some? ==>
      && s.currentId in g.questions
      && var q := g.questions[s.currentId];
      && var target := if e == ClickYes then YesTarget(q) else NoTarget(q);
      && target.Some?
      && Step(g, s, e).value == State(target.value, s.selectedAnswer)
  {
  }

  /** On a question, with any open details resolvable, Yes and No are enabled
      exactly when the question's button is shown, and then move to its target. */
  lemma StepOnQuestion(g: Graph, s: State, q: Question)
    requires s.currentId in g.questions && g.questions[s.currentId] == q
    requires s.selectedAnswer.Some? ==> s.selectedAnswer.value in g.answers
    ensures Step(g, s, ClickYes)
            == if YesTarget(q).Some? then Some(State(YesTarget(q).value, s.selectedAnswer)) else None
    ensures Step(g, s, ClickNo)
            == if NoTarget(q).Some? then Some(State(NoTarget(q).value, s.selectedAnswer)) else None
    ensures Step(g, s, ClickDescription) == None && Step(g, s, ClickRestart) == None
  {
  }

  /** A question with no details open shows its prompt's lines and its buttons. */
  lemma QuestionShown(g: Graph, s: State, q: Question)
    requires s.currentId in g.questions && g.questions[s.currentId] == q
    requires !FlowQuestion.Truthy(s.selectedAnswer)
    ensures Render(g, s) == Some(View(None, QuestionScreen(FlowQuestion.Lines(q.text), YesTarget(q), NoTarget(q))))
  {
  }

  /** On an answer, with any open details resolvable, the description and
      Restart are enabled and Yes and No are not. */
  lemma StepOnAnswer(g: Graph, s: State)
    requires s.currentId !in g.questions && s.currentId in g.answers
    requires s.selectedAnswer.Some? ==> s.selectedAnswer.value in g.answers
    ensures Render(g, s).Some?
    ensures Render(g, s).value.screen == AnswerScreen(g.answers[s.currentId].description)
    ensures Step(g, s, ClickYes) == None && Step(g, s, ClickNo) == None
    ensures Step(g, s, ClickDescription) == Some(State(s.currentId, Some(s.currentId)))
    ensures Step(g, s, ClickRestart) == Some(State(Root, s.selectedAnswer))
  {
  }

  /** A question without a truthy target shows no button: no click moves the
      session away from it. */
  lemma QuestionWithoutTargetsStaysPut(g: Graph, s: State, e: Event)
    requires s.currentId in g.questions
    requires YesTarget(g.questions[s.currentId]).None? && NoTarget(g.questions[s.currentId]).None?
    ensures Step(g, s, e).Some? ==> e == ClickClose && Step(g, s, e).value.currentId == s.currentId
  {
  }

  /** A question whose four props are all falsy is drawn with neither button
      (the component-level fact `FlowQuestion.NoTargetNoButtons`), so the only
      click the page accepts there is closing the details overlay. */
  lemma QuestionWithoutPropsHasNoButtons(g: Graph, s: State, e: Event)
    requires s.currentId in g.questions
    requires !FlowQuestion.Truthy(g.questions[s.currentId].yes) && !FlowQuestion.Truthy(g.questions[s.currentId].yesAnswer)
    requires !FlowQuestion.Truthy(g.questions[s.currentId].no) && !FlowQuestion.Truthy(g.questions[s.currentId].noAnswer)
    ensures ButtonsOf(g.questions[s.currentId]) == FlowQuestion.Buttons(None, None)
    ensures Step(g, s, e).Some? ==> e == ClickClose && Step(g, s, e).value.currentId == s.currentId
  {
    var q := g.questions[s.currentId];
    FlowQuestion.NoTargetNoButtons(q.yes, q.no, q.yesAnswer, q.noAnswer);
    QuestionWithoutTargetsStaysPut(g, s, e);
  }

  /** Restart is offered on an answer screen only; it goes back to the root,
      keeps `selectedAnswer`, and doing it twice is doing it once. */
  lemma RestartReturnsToRoot(g: Graph, s: State)
    ensures Step(g, s, ClickRestart).Some? ==>
      && s.currentId !in g.questions && s.currentId in g.answers
      && Step(g, s, ClickRestart).value == State(Root, s.selectedAnswer)
      && Restart(Step(g, s, ClickRestart).value) == Step(g, s, ClickRestart).value
  {
  }

  /** After Restart the question screen shows the root question's prompt again. */
  lemma RestartShowsRootPrompt(g: Graph, s: State)
    requires ValidGraph(g) && Root in g.questions
    requires Inv(g, s)
    ensures Step(g, s, ClickRestart).Some? ==>
      && Render(g, Step(g, s, ClickRestart).value).Some?
      && Render(g, Step(g, s, ClickRestart).value).value.screen
         == QuestionScreen(FlowQuestion.Lines(g.questions[Root].text),
                           YesTarget(g.questions[Root]), NoTarget(g.questions[Root]))
  {
  }

  /** The description can only be clicked while the current id is not a
      question; the click opens the details of the current answer, which are
      shown unless that id is the falsy `""`. */
  lemma SelectOpensCurrentAnswer(g: Graph, s: State)
    ensures Step(g, s, ClickDescription).Some? ==>
      && s.currentId !in g.questions && s.currentId in g.answers
      && Step(g, s, ClickDescription).value == State(s.currentId, Some(s.currentId))
      && Render(g, Step(g, s, ClickDescription).value).Some?
      && Render(g, Step(g, s, ClickDescription).value).value.details
         == if s.currentId != "" then Some(g.answers[s.currentId].description) else None
  {
  }

  /** Close is offered exactly while the details are open; it clears the
      selection and keeps the current id. */
  lemma CloseKeepsPosition(g: Graph, s: State)
    requires Inv(g, s)
    ensures Step(g, s, ClickClose).Some? <==> FlowQuestion.Truthy(s.selectedAnswer)
    ensures Step(g, s, ClickClose).Some? ==> Step(g, s, ClickClose).value == State(s.currentId, None)
  {
  }

  /** Opening an answer's details and closing them again only clears the
      selection (an answer keyed `""` opens no details, so there is nothing to close). */
  lemma InspectionRoundTrip(g: Graph, s: State)
    requires KindsDisjoint(g)
    requires Inv(g, s)
    requires s.currentId in g.answers
    ensures Run(g, s, [ClickDescription, ClickClose])
            == if s.currentId != "" then Some(State(s.currentId, None)) else None
  {
    assert s.currentId !in g.questions;
    var t := SelectAnswer(s);
    assert Step(g, s, ClickDescription) == Some(t);
    assert [ClickDescription, ClickClose][1..] == [ClickClose];
    if s.currentId != "" {
      assert Step(g, t, ClickClose) == Some(State(s.currentId, None));
    } else {
      assert Step(g, t, ClickClose) == None;
    }
  }

  /** Every click keeps the current id at the root or at some button's target. */
  lemma StepStaysOnTargets(g: Graph, s: State, e: Event)
    requires s.currentId == Root || IsTarget(g, s.currentId)
    ensures Step(g, s, e).Some? ==>
      var t := Step(g, s, e).value;
      t.currentId == Root || IsTarget(g, t.currentId)
  {
    if Step(g, s, e).Some? && (e == ClickYes || e == ClickNo) {
      var q := g.questions[s.currentId];
      assert YesTarget(q) == Some(Step(g, s, e).value.currentId)
          || NoTarget(q) == Some(Step(g, s, e).value.currentId);
    }
  }

  /** From the start, the current id is always the root or some button's target;
      a question that no button names is never shown. */
  lemma {:induction false} RunStaysOnTargets(g: Graph, s: State, es: seq<Event>)
    requires s.currentId == Root || IsTarget(g, s.currentId)
    ensures Run(g, s, es).Some? ==>
      var t := Run(g, s, es).value;
      t.currentId == Root || IsTarget(g, t.currentId)
    decreases |es|
  {
    if |es| > 0 {
      StepStaysOnTargets(g, s, es[0]);
      if Step(g, s, es[0]).Some? {
        RunStaysOnTargets(g, Step(g, s, es[0]).value, es[1..]);
      }
    }
  }
}
