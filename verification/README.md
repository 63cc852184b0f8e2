# The algorithm-selection dashboard, modelled in Dafny

The dashboard is a quiz that walks a user through a decision graph of yes/no
questions to the family of algorithms that fits a problem. The page holds two
static tables: 26 questions, each with a prompt and the ids its Yes and No
buttons lead to, and 14 answers, each naming a technique. The session has two
values: the current node id (initially `question1`) and the answer whose details
overlay is open (initially none). The page renders the current node:
- a question shows its prompt three words per line, with a Yes and a No button;
- an answer shows its technique name, which opens the details overlay when
  clicked, and a Restart button.

The model has five modules, one file each:

- `Wrappers` (`wrappers.dfy`): `Option`, where `None` stands for JavaScript's `undefined`/`null`.
- `Words` (`words.dfy`): the string's `split(" ")` and the array's `join(" ")`,
  including the empty pieces produced by leading, trailing and doubled spaces.
  It proves both round trips.
- `FlowQuestion` (`flow_question.dfy`): the question component.
  - The prompt is laid out as a pure function `Lines` and as the component's
    loop, `LayoutLines`, which is proved equal to it.
  - Yes/No buttons use JavaScript truthiness: an empty id is falsy.
- `DecisionGraph` (`decision_graph.dfy`): the page over any pair of tables.
  - Tables, session state, and the four handlers (`HandleAnswer`, `Restart`, `SelectAnswer`, `CloseDetails`).
  - `Render`, which gives `None` for the TypeError of reading `.description` of an undefined entry.
  - `Step`: one click, refused when its control is not on screen.
  - `Run`: a click sequence.
- `ReferenceData` (`reference_data.dfy`): the page's own two tables, with the
  question prompts and answer descriptions verbatim, and without the answers' examples.
  It holds validity lemmas and concrete traces through the graph.

Behaviour of the code worth noting, which the model keeps as written:

- Choosing Yes/No and pressing Restart do not clear the open selection. Only
  Close does (`page.tsx:789-791`, `827`). On the real page the details overlay
  covers the whole viewport (`answer-details.tsx:17`), so Yes, No and Restart
  cannot be reached while it is open. A selection surviving those clicks is
  observable only because the model treats the overlay as not blocking (see
  "## Left out").
- No "no such branch" outcome exists. A question without a truthy target simply
  renders no button, so that click is not available (`flow-question.tsx:38-53`).
- No validation runs at start-up. Graph validity (`ValidGraph`) is a property
  proved of the page's tables (`ReferenceData.FlowIsValid`). The generic lemmas
  assume it.

## Model

| member | source | states |
|---|---|---|
| Words.Split | src/app/dashboard/components/flow-question.tsx:20 | `split(" ")` yields one more piece than there are spaces, and no piece contains a space |
| Words.Join | src/app/dashboard/components/flow-question.tsx:23 | `join(" ")` of no parts is `""`; otherwise its length is the parts' total plus one separator between neighbours, and it starts with the first part |
| Words.JoinSplit | src/app/dashboard/components/flow-question.tsx:20-23 | joining the split pieces with `" "` gives back any string, including empty runs from leading, trailing or doubled spaces |
| Words.SplitJoin | src/app/dashboard/components/flow-question.tsx:20-23 | splitting a join of a non-empty list of space-free words gives back that list |
| Words.JoinAppend | src/app/dashboard/components/flow-question.tsx:23 | joining a concatenation of two non-empty lists puts one separator between their joins |
| FlowQuestion.Chunk | src/app/dashboard/components/flow-question.tsx:22-23 | cutting n words three at a time makes ceil(n / 3) groups |
| FlowQuestion.ChunkFlatten | src/app/dashboard/components/flow-question.tsx:22-23 | the groups, concatenated in order, are exactly the words: nothing is lost, duplicated or reordered |
| FlowQuestion.ChunkSlices | src/app/dashboard/components/flow-question.tsx:22-23 | the k-th group is the slice from `3k` to `3k + 3`, with its end clamped to the number of words |
| FlowQuestion.ChunkSizes | src/app/dashboard/components/flow-question.tsx:22-23 | every group holds one to three words, and every group but the last holds exactly three |
| FlowQuestion.LinesShape | src/app/dashboard/components/flow-question.tsx:20-24 | a prompt is drawn on ceil(n / 3) lines for its n words, at least one line; each line re-splits into one to three words, three for all lines but the last |
| FlowQuestion.LinesRoundTrip | src/app/dashboard/components/flow-question.tsx:20-24 | joining the drawn lines with `" "` gives back the prompt exactly |
| FlowQuestion.LinesResplit | src/app/dashboard/components/flow-question.tsx:20-24 | re-splitting every line and concatenating the results gives the prompt's words, in order |
| FlowQuestion.SlicedLinesAreLines | src/app/dashboard/components/flow-question.tsx:20-24 | lines that are, one per group, the joined slices from `3k` to `3k + 3` (clamped) of the prompt's words are exactly the drawn lines |
| FlowQuestion.LayoutLines | src/app/dashboard/components/flow-question.tsx:20-24 | the loop stepping by three builds lines that join back into the prompt and are exactly the lines of `Lines` |
| FlowQuestion.Lines | src/app/dashboard/components/flow-question.tsx:20-24 | no contract of its own; see `LinesShape`, `LinesRoundTrip`, `LinesResplit`, and `LayoutLines`, which proves the loop equal to it |
| FlowQuestion.Truthy | src/app/dashboard/components/flow-question.tsx:38-46 | no contract of its own: JavaScript truthiness of an optional string; its use is stated by `Button` |
| FlowQuestion.Or | src/app/dashboard/components/flow-question.tsx:41-49 | no contract of its own: JavaScript's or-operator on optional strings; its use is stated by `Button` |
| FlowQuestion.Button | src/app/dashboard/components/flow-question.tsx:38-53 | a button is shown exactly when the question target or the answer fallback is truthy; it emits the question target when that is truthy, else the fallback, and never emits `""` |
| FlowQuestion.QuestionButtons | src/app/dashboard/components/flow-question.tsx:37-54 | no contract of its own: the pair of Yes and No buttons; see `NoTargetNoButtons`, and `DecisionGraph.QuestionWithoutPropsHasNoButtons` for the page |
| FlowQuestion.NoTargetNoButtons | src/app/dashboard/components/flow-question.tsx:38-53 | with no truthy target at all, neither the Yes nor the No button is rendered |
| DecisionGraph.Classify | src/app/dashboard/page.tsx:793-805 | no contract of its own: the question-table-first lookup; see `ClassificationIsUnambiguous` and `UnknownOnlyOffGraph` |
| DecisionGraph.HandleAnswer | src/app/dashboard/page.tsx:789-791 | no contract of its own; see `ChoiceFollowsEdge` and `StepOnQuestion` |
| DecisionGraph.Restart | src/app/dashboard/page.tsx:827 | no contract of its own; see `RestartReturnsToRoot`, `StepOnAnswer` and `RestartShowsRootPrompt` |
| DecisionGraph.SelectAnswer | src/app/dashboard/page.tsx:821 | no contract of its own; see `SelectOpensCurrentAnswer` and `InspectionRoundTrip` |
| DecisionGraph.CloseDetails | src/app/dashboard/page.tsx:802 | no contract of its own; see `CloseKeepsPosition` and `InspectionRoundTrip` |
| DecisionGraph.Render | src/app/dashboard/page.tsx:796-834 | no contract of its own; see `InvRenders`, `QuestionShown`, `StepOnAnswer` and `SelectOpensCurrentAnswer` |
| DecisionGraph.Available | src/app/dashboard/page.tsx:805-830 | no contract of its own: which controls are on screen (Yes and No on a question when their button is shown, the description and Restart on an answer, Close while details are open); see `StepFailsOnlyOffScreen`, `StepOnQuestion`, `StepOnAnswer` and `CloseKeepsPosition` |
| DecisionGraph.ButtonsOf | src/app/dashboard/page.tsx:811-814 | no contract of its own: the page passes a question's `yes`, `no`, `yesAnswer` and `noAnswer` to the question component, whose buttons `Render` shows; see `QuestionWithoutPropsHasNoButtons` |
| DecisionGraph.YesTarget | src/app/dashboard/page.tsx:811-814 | no contract of its own: the Yes button built from the props the page passes; see `FlowQuestion.Button`, `StepOnQuestion` and `QuestionWithoutPropsHasNoButtons` |
| DecisionGraph.NoTarget | src/app/dashboard/page.tsx:811-814 | no contract of its own: the No button built from the props the page passes; see `FlowQuestion.Button`, `StepOnQuestion` and `QuestionWithoutPropsHasNoButtons` |
| DecisionGraph.Step | src/app/dashboard/page.tsx:796-834 | no contract of its own; see `StepFailsOnlyOffScreen`, `StepPreservesInv`, `StepOnQuestion`, `StepOnAnswer`, `CloseKeepsPosition` and `StepStaysOnTargets` |
| DecisionGraph.Run | src/app/dashboard/page.tsx:785-835 | no contract of its own; see `RunAppend`, `RunPreservesInv`, `ReachableRenders` and `RunStaysOnTargets` |
| DecisionGraph.ClassificationIsUnambiguous | src/app/dashboard/page.tsx:793-816 | looking up the question table before the answer table gives the same node for every id exactly when no id is in both tables |
| DecisionGraph.UnknownOnlyOffGraph | src/app/dashboard/page.tsx:793-816 | an id is neither a question nor an answer exactly when it is in neither table |
| DecisionGraph.InitSatisfiesInv | src/app/dashboard/page.tsx:786-787 | the session starts at `question1` with no details open, which satisfies the invariant on a valid graph |
| DecisionGraph.InvRenders | src/app/dashboard/page.tsx:793-816 | when the current id is a node and any open selection is an answer, rendering reads no undefined entry |
| DecisionGraph.StepFailsOnlyOffScreen | src/app/dashboard/page.tsx:796-833 | under the invariant a click is refused exactly when its control is not on screen |
| DecisionGraph.StepPreservesInv | src/app/dashboard/page.tsx:789-791 | on a valid graph every click keeps the current id a node and any open selection an answer |
| DecisionGraph.RunPreservesInv | src/app/dashboard/page.tsx:785-835 | on a valid graph every sequence of clicks keeps the invariant |
| DecisionGraph.ReachableRenders | src/app/dashboard/page.tsx:785-835 | from the start, whatever the user clicks, the page renders |
| DecisionGraph.RunAppend | src/app/dashboard/page.tsx:785-835 | running two click sequences in turn is running their concatenation, stopping at the first refused click |
| DecisionGraph.ChoiceFollowsEdge | src/app/dashboard/page.tsx:789-791 | a successful Yes or No happens on a question with that button shown; it moves to the button's target and keeps the selection |
| DecisionGraph.StepOnQuestion | src/app/dashboard/page.tsx:805-816 | on a question, Yes and No succeed exactly when their button is shown and move to its target; description and Restart are refused |
| DecisionGraph.QuestionShown | src/app/dashboard/page.tsx:805-816 | a question with no details open shows its prompt's lines and its two button targets |
| DecisionGraph.StepOnAnswer | src/app/dashboard/page.tsx:817-833 | on an answer, the screen shows its description; Yes and No are refused, the description opens this answer's details, and Restart goes to `question1` with the selection kept |
| DecisionGraph.QuestionWithoutTargetsStaysPut | src/app/dashboard/page.tsx:805-816 | a question with no truthy target shows no buttons, so the only possible click is Close and it keeps the current id |
| DecisionGraph.QuestionWithoutPropsHasNoButtons | src/app/dashboard/components/flow-question.tsx:37-54 | on the page, a question whose `yes`, `no`, `yesAnswer` and `noAnswer` are all falsy is drawn with neither button, so the only possible click is Close and it keeps the current id |
| DecisionGraph.RestartReturnsToRoot | src/app/dashboard/page.tsx:825-830 | Restart is offered only on an answer screen, goes to `question1`, keeps the selection; the Restart handler is idempotent, `Restart(Restart(s)) == Restart(s)` (a second Restart click is refused whenever the root is a question) |
| DecisionGraph.RestartShowsRootPrompt | src/app/dashboard/page.tsx:825-830 | after Restart on a valid graph the root question's prompt and buttons are shown |
| DecisionGraph.SelectOpensCurrentAnswer | src/app/dashboard/page.tsx:819-824 | the description click happens only on an answer screen and selects the current id; the details then show its description unless the id is the falsy `""` |
| DecisionGraph.CloseKeepsPosition | src/app/dashboard/page.tsx:798-804 | Close is offered exactly while the details are open; it clears the selection and keeps the current id |
| DecisionGraph.InspectionRoundTrip | src/app/dashboard/page.tsx:798-824 | on an answer, opening its details and closing them again only clears the selection (with an answer keyed `""` no details open, so Close is refused) |
| DecisionGraph.StepStaysOnTargets | src/app/dashboard/page.tsx:789-791 | every click keeps the current id at `question1` or at some button's target |
| DecisionGraph.RunStaysOnTargets | src/app/dashboard/page.tsx:785-835 | every click sequence from the root, or from some button's target, stays on the root or on button targets |
| ReferenceData.SoundQuestion1 | src/app/dashboard/page.tsx:21-29 | `question1` sets `yes` to `question2` and `no` to `question8` and no fallback; both targets name entries of the tables other than `question15` and `question22` |
| ReferenceData.SoundQuestion2 | src/app/dashboard/page.tsx:30-38 | `question2` sets `yes` to `answer1` and `no` to `question3` and no fallback; both targets name entries of the tables other than `question15` and `question22` |
| ReferenceData.SoundQuestion3 | src/app/dashboard/page.tsx:39-47 | `question3` sets `yes` to `answer2` and `no` to `question4` and no fallback; both targets name entries of the tables other than `question15` and `question22` |
| ReferenceData.SoundQuestion4 | src/app/dashboard/page.tsx:48-56 | `question4` sets `yes` to `question5` and `no` to `question6` and no fallback; both targets name entries of the tables other than `question15` and `question22` |
| ReferenceData.SoundQuestion5 | src/app/dashboard/page.tsx:57-65 | `question5` sets `yes` to `answer3` and `no` to `answer4` and no fallback; both targets name entries of the tables other than `question15` and `question22` |
| ReferenceData.SoundQuestion6 | src/app/dashboard/page.tsx:66-74 | `question6` sets `yes` to `answer5` and `no` to `question7` and no fallback; both targets name entries of the tables other than `question15` and `question22` |
| ReferenceData.SoundQuestion7 | src/app/dashboard/page.tsx:75-83 | `question7` sets `yes` to `answer6` and `no` to `answer4` and no fallback; both targets name entries of the tables other than `question15` and `question22` |
| ReferenceData.SoundQuestion8 | src/app/dashboard/page.tsx:84-92 | `question8` sets `yes` to `answer7` and `no` to `question9` and no fallback; both targets name entries of the tables other than `question15` and `question22` |
| ReferenceData.SoundQuestion9 | src/app/dashboard/page.tsx:93-101 | `question9` sets `yes` to `answer8` and `no` to `question10` and no fallback; both targets name entries of the tables other than `question15` and `question22` |
| ReferenceData.SoundQuestion10 | src/app/dashboard/page.tsx:102-110 | `question10` sets `yes` to `question11` and `no` to `question12` and no fallback; both targets name entries of the tables other than `question15` and `question22` |
| ReferenceData.SoundQuestion11 | src/app/dashboard/page.tsx:111-119 | `question11` sets `yes` to `answer9` and `no` to `answer10` and no fallback; both targets name entries of the tables other than `question15` and `question22` |
| ReferenceData.SoundQuestion12 | src/app/dashboard/page.tsx:120-128 | `question12` sets `yes` to `question13` and `no` to `question14` and no fallback; both targets name entries of the tables other than `question15` and `question22` |
| ReferenceData.SoundQuestion13 | src/app/dashboard/page.tsx:129-137 | `question13` sets `yes` to `answer11` and `no` to `answer12` and no fallback; both targets name entries of the tables other than `question15` and `question22` |
| ReferenceData.SoundQuestion14 | src/app/dashboard/page.tsx:138-146 | `question14` sets `yes` to `question2` and `no` to `question18` and no fallback; both targets name entries of the tables other than `question15` and `question22` |
| ReferenceData.SoundQuestion15 | src/app/dashboard/page.tsx:147-155 | `question15` sets `yes` to `answer13` and `no` to `question16` and no fallback; both targets name entries of the tables other than `question15` and `question22` |
| ReferenceData.SoundQuestion16 | src/app/dashboard/page.tsx:156-164 | `question16` sets `yes` to `answer10` and `no` to `question17` and no fallback; both targets name entries of the tables other than `question15` and `question22` |
| ReferenceData.SoundQuestion17 | src/app/dashboard/page.tsx:165-173 | `question17` sets `yes` to `answer14` and `no` to `question8` and no fallback; both targets name entries of the tables other than `question15` and `question22` |
| ReferenceData.SoundQuestion18 | src/app/dashboard/page.tsx:174-182 | `question18` sets `yes` to `question19` and `no` to `question20` and no fallback; both targets name entries of the tables other than `question15` and `question22` |
| ReferenceData.SoundQuestion19 | src/app/dashboard/page.tsx:183-191 | `question19` sets `yes` to `answer9` and `no` to `answer10` and no fallback; both targets name entries of the tables other than `question15` and `question22` |
| ReferenceData.SoundQuestion20 | src/app/dashboard/page.tsx:192-200 | `question20` sets `yes` to `question21` and `no` to `question23` and no fallback; both targets name entries of the tables other than `question15` and `question22` |
| ReferenceData.SoundQuestion21 | src/app/dashboard/page.tsx:201-209 | `question21` sets `yes` to `answer8` and `no` to `question1` and no fallback; both targets name entries of the tables other than `question15` and `question22` |
| ReferenceData.SoundQuestion22 | src/app/dashboard/page.tsx:210-218 | `question22` sets `yes` to `answer10` and `no` to `question1` and no fallback; both targets name entries of the tables other than `question15` and `question22` |
| ReferenceData.SoundQuestion23 | src/app/dashboard/page.tsx:219-227 | `question23` sets `yes` to `question24` and `no` to `question25` and no fallback; both targets name entries of the tables other than `question15` and `question22` |
| ReferenceData.SoundQuestion24 | src/app/dashboard/page.tsx:228-236 | `question24` sets `yes` to `answer8` and `no` to `question1` and no fallback; both targets name entries of the tables other than `question15` and `question22` |
| ReferenceData.SoundQuestion25 | src/app/dashboard/page.tsx:237-245 | `question25` sets `yes` to `question26` and `no` to `question1` and no fallback; both targets name entries of the tables other than `question15` and `question22` |
| ReferenceData.SoundQuestion26 | src/app/dashboard/page.tsx:246-254 | `question26` sets `yes` to `answer8` and `no` to `question1` and no fallback; both targets name entries of the tables other than `question15` and `question22` |
| ReferenceData.KeyInSomePart | src/app/dashboard/page.tsx:20-255 | every key of the question table is one of `question1` to `question26`, so `SoundQuestions` and the targets pinned by `SoundQuestion1`-`SoundQuestion26` cover every entry of `ReferenceData.Questions`; the question texts are not pinned |
| ReferenceData.SoundQuestion | src/app/dashboard/page.tsx:20-255 | every question entry is sound, and its Yes and No buttons emit its `yes` and `no` entries |
| ReferenceData.SoundQuestions | src/app/dashboard/page.tsx:20-255 | every entry of the question table is sound |
| ReferenceData.QuestionIdsStartWithQ | src/app/dashboard/page.tsx:20-255 | every question id starts with `q` |
| ReferenceData.AnswerIdsStartWithA | src/app/dashboard/page.tsx:257-783 | every answer id starts with `a` |
| ReferenceData.KindsAreDisjoint | src/app/dashboard/page.tsx:20-783 | no id is both a question and an answer |
| ReferenceData.FlowIsValid | src/app/dashboard/page.tsx:20-783 | the page's tables form a valid graph: `question1` is a question, every button target is a node, and the tables are disjoint |
| ReferenceData.BothButtonsEverywhere | src/app/dashboard/page.tsx:20-255 | every question shows both buttons, and they emit its `yes` and `no` entries |
| ReferenceData.OrphansAreNotTargets | src/app/dashboard/page.tsx:20-255 | `question15` and `question22` are in the table, but no button of any question names them |
| ReferenceData.StepOnFlowQuestion | src/app/dashboard/page.tsx:789-816 | on the page's tables, Yes and No from any question move to its `yes` and `no` entries and keep the selection |
| ReferenceData.AnswerShown | src/app/dashboard/page.tsx:817-823 | on the page's tables, any answer id with no details open shows that answer's description |
| ReferenceData.Question1Yes | src/app/dashboard/page.tsx:21-29 | Yes on `question1`, with no details open, moves to `question2` |
| ReferenceData.Question2Yes | src/app/dashboard/page.tsx:30-38 | Yes on `question2`, with no details open, moves to `answer1` |
| ReferenceData.Question1No | src/app/dashboard/page.tsx:21-29 | No on `question1`, with no details open, moves to `question8` |
| ReferenceData.Question8No | src/app/dashboard/page.tsx:84-92 | No on `question8`, with no details open, moves to `question9` |
| ReferenceData.Question9Yes | src/app/dashboard/page.tsx:93-101 | Yes on `question9`, with no details open, moves to `answer8` |
| ReferenceData.Question5Yes | src/app/dashboard/page.tsx:57-65 | Yes on `question5`, with no details open, moves to `answer3` |
| ReferenceData.Question5No | src/app/dashboard/page.tsx:57-65 | No on `question5`, with no details open, moves to `answer4` |
| ReferenceData.Question9No | src/app/dashboard/page.tsx:93-101 | No on `question9`, with no details open, moves to `question10` |
| ReferenceData.Question10No | src/app/dashboard/page.tsx:102-110 | No on `question10`, with no details open, moves to `question12` |
| ReferenceData.Question12No | src/app/dashboard/page.tsx:120-128 | No on `question12`, with no details open, moves to `question14` |
| ReferenceData.Question14No | src/app/dashboard/page.tsx:138-146 | No on `question14`, with no details open, moves to `question18` |
| ReferenceData.Question18No | src/app/dashboard/page.tsx:174-182 | No on `question18`, with no details open, moves to `question20` |
| ReferenceData.Question20Yes | src/app/dashboard/page.tsx:192-200 | Yes on `question20`, with no details open, moves to `question21` |
| ReferenceData.Question21No | src/app/dashboard/page.tsx:201-209 | No on `question21`, with no details open, moves to `question1` |
| ReferenceData.Question17No | src/app/dashboard/page.tsx:165-173 | No on `question17`, with no details open, moves to `question8` |
| ReferenceData.DepthFirstSearchTrace | src/app/dashboard/page.tsx:21-38 | from the start, Yes then Yes reaches `answer1` |
| ReferenceData.DepthFirstSearchScreen | src/app/dashboard/page.tsx:258-289 | `answer1` shows "Depth First Search" |
| ReferenceData.TwoPointersTrace | src/app/dashboard/page.tsx:21-101 | from the start, No, No, Yes reaches `answer8` |
| ReferenceData.TwoPointersScreen | src/app/dashboard/page.tsx:581-610 | `answer8` shows "Two Pointers" |
| ReferenceData.WeightedGraphTraces | src/app/dashboard/page.tsx:57-65 | at `question5`, Yes leads to `answer3` and No to `answer4` |
| ReferenceData.DijkstraScreen | src/app/dashboard/page.tsx:332-379 | `answer3` shows "Dijkstra's Algorithm" |
| ReferenceData.BreadthFirstSearchScreen | src/app/dashboard/page.tsx:380-417 | `answer4` shows "Breadth First Search" |
| ReferenceData.RootToQuestion10 | src/app/dashboard/page.tsx:21-101 | from the start, three Noes reach `question10` |
| ReferenceData.Question10ToQuestion18 | src/app/dashboard/page.tsx:102-146 | from `question10`, three Noes reach `question18` |
| ReferenceData.Question18ToRoot | src/app/dashboard/page.tsx:174-209 | from `question18`, No, Yes, No lead back to `question1` |
| ReferenceData.Cycles | src/app/dashboard/page.tsx:21-209 | the graph has cycles: seven Noes, a Yes and a No lead from the start back to the start, and No on `question17` leads back to `question8` |
| ReferenceData.RootHasNoDetails | src/app/dashboard/page.tsx:21-29 | the start screen is a question: no description to open and no Restart |
| ReferenceData.RestartFromAnswer1 | src/app/dashboard/page.tsx:825-830 | Restart on `answer1` returns to the initial session |
| ReferenceData.RestartAfterAnswer | src/app/dashboard/page.tsx:21-38 | Yes, Yes, Restart from the start returns to the initial session |
| ReferenceData.RootQuestionText | src/app/dashboard/page.tsx:21-29 | the root question's prompt is "Is it a graph?" |
| ReferenceData.RootButtons | src/app/dashboard/page.tsx:21-29 | the root question's Yes leads to `question2` and its No to `question8` |
| ReferenceData.RootPrompt | src/app/dashboard/page.tsx:805-816 | the start screen shows the root prompt's lines with Yes to `question2` and No to `question8`, and no details |
| ReferenceData.ReachableSessions | src/app/dashboard/page.tsx:785-835 | on the page's tables, whatever the user clicks, the page renders and never shows `question15` or `question22` |

## Left out

- The answers' `examples` lists (code snippets and prose) and the
  `AnswerDetails` component that displays them (`answer-details.tsx`). Only
  the `description` an answer shows is modelled.
- The `example` texts that every question entry carries. The page passes
  the first one to the question component, which neither declares nor shows
  that prop.
- Styling, layout and the DOM. In particular, the details overlay covers the
  page but is modelled as not blocking the controls underneath. Every control
  that is rendered counts as clickable.
- React's scheduling and re-rendering. Each click is one atomic transition of
  the two state values, followed by a fresh render.
- Lookups of keys inherited from JavaScript's object prototype (such as
  `constructor`). Table lookups are own-key map lookups.
- The `yesAnswer`/`noAnswer` fallbacks are modelled in the buttons, but no
  table entry sets them. The generic lemmas cover them; the reference data
  does not exercise them.
- Dafny strings are sequences of Unicode scalar values, while JavaScript
  strings are UTF-16. `split(" ")` and `join(" ")` behave the same either way.
  But the lengths in `Words.Join`'s contract count scalar values rather than
  JavaScript's `.length`, and lone surrogates cannot be represented.
