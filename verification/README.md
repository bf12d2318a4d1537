# Configuration wizard store, modelled in Dafny

This project models the core of a multi-step configuration wizard for industrial equipment.
The core is the configuration store. It holds:

- a four-slot hierarchy selection (industry, technology, solution, variant);
- a list of numeric parameters, each with a nullable default and a nullable override;
- a list of formula calculations;
- an ordered queue of patches proposed by an assistant;
- the current wizard step.

It also models the four small components that decide things about that store:

- the calculation builder dialog: prefill, formula check, and the submit rule;
- the wizard footer: Next and Back;
- the wizard layout: step gate, progress, and step status;
- the cascading hierarchy selector.

Modules: `Text` holds the text substitution that the store and the dialog share; each of the others stands for one source file.

- `Types` (`types.dfy`): the entities of `src/types/index.ts`. Numbers are `real`. The evaluator's outcome is `Threw`, `NonNumeric` or `Numeric(n)`.
- `Text` (`text.dfy`): the literal replace-all that the formula substitution uses, plus its characterisation. Replacing is the same as cutting the text at the occurrences and gluing the pieces back with the replacement. Gluing them back with the pattern returns the text. No piece still contains the pattern.
- `ParameterStore` (`store.dfy`): the store as a class `Store` with one field per piece of state. Each action is a method, proved against a pure function of the old state: `Recalculated`, `ApplyAll`, `Rolledback`, `WithLevel`, `UpdatedParameters`, `UpdatedCalculations` and `WithoutCalculation`. Lemmas about those functions carry the properties.
- `CalcBuilder` (`calc_builder.dfy`), `StepFooter` (`step_footer.dfy`), `WizardLayout` (`wizard_layout.dfy`) and `HierarchySelector` (`hierarchy_selector.dfy`): the decision rules of the four components.

Foreign calls are parameters of the model. mathjs `evaluate` is the store's `evaluate` constant. Number-to-text is the store's `render` constant. `uuidv4()` is the `freshId` argument of `HandleSubmit`. The route's step number is an argument of `RouteStep`. In `src/App.tsx:26-31` the step pages are the literal routes `step/1` to `step/5`, with no `:step` parameter, so the app as written always hands `RouteStep` the absent case: the layout's step is always 1, steps 2..5 show as locked and progress stays at 20. The model covers every route step all the same.

Facts about the store that the model keeps:

- `setHierarchy` writes only the slot of its level. It does not clear the downstream slots.
- `recalc` substitutes parameter ids only. A formula cannot refer to another calculation's value.
- Only `applyPatch` runs `recalc`. `updateParameter`, `resetParam` and the calculation edits leave calculation values as they were.
- `rollback(k)` accepts any `k >= 0`. A `k` at or beyond the queue length leaves the queue as it is.
- `applyPatch` checks nothing. Every applied patch lands in the queue, even one whose id matches nothing.

## Model

| member | source | states |
|---|---|---|
| `Text.ReplaceAll` | src/store/useParameterStore.ts:113 | a global replace of a non-empty id by itself, or in a text shorter than the id, leaves the text as it was; an empty id puts the replacement at the front |
| `Text.ReplaceAllJoinsPieces` | src/store/useParameterStore.ts:113 | replacing every occurrence of an id equals cutting the formula at the occurrences, left to right without overlap, and joining the pieces with the replacement |
| `Text.JoinPieces` | src/store/useParameterStore.ts:113 | joining the pieces with the pattern itself gives the original text back |
| `Text.PiecesHoldNoOccurrence` | src/store/useParameterStore.ts:113 | no piece between replacements contains the id |
| `Text.NoOccurrenceStartsInPiece` | src/store/useParameterStore.ts:113 | no occurrence of the id starts inside a piece of the text from that piece on: the cut is the leftmost, non-overlapping one, as a global replace makes it, also for ids that overlap themselves |
| `Text.ReplaceAbsent` | src/store/useParameterStore.ts:113 | a non-empty id that does not occur leaves the formula unchanged |
| `Text.ReplaceEachAbsent` | src/store/useParameterStore.ts:111-114 | a sequence of replacements whose ids are all absent and non-empty leaves the formula unchanged |
| `ParameterStore.Effective` | src/store/useParameterStore.ts:112 | the substituted number is the override when present, otherwise the default when present, otherwise 0 |
| `ParameterStore.Overridden` | src/components/ParamGrid.tsx:23 | a parameter shown as overridden has an override that differs from its default and is its effective value; one not shown as overridden has effective value `defaultValue ?? 0` |
| `ParameterStore.Recalculated` | src/store/useParameterStore.ts:105-126 | recalc keeps length, order, ids, names, formulas, units and descriptions; each value is the evaluator's number for the formula with every parameter id replaced, in list order, by `value ?? defaultValue ?? 0`, and absent when evaluation throws or yields a non-number |
| `ParameterStore.RecalcIdempotent` | src/store/useParameterStore.ts:105-126 | recalculating twice equals recalculating once |
| `ParameterStore.RecalcSeesOnlyEffectiveValues` | src/store/useParameterStore.ts:111-113 | two parameter lists with the same ids and effective values give the same calculation values |
| `ParameterStore.RecalcOfFormulaWithoutIds` | src/store/useParameterStore.ts:110-117 | a formula that mentions no parameter id is evaluated as written |
| `ParameterStore.UpdatedParameters` | src/store/useParameterStore.ts:141-148 | updateParameter keeps the list length and order and changes only the named field of the parameters whose id matches |
| `ParameterStore.UpdatedCalculations` | src/store/useParameterStore.ts:150-157 | updateCalculation keeps the list length and order and changes only the named field of the calculations whose id matches |
| `ParameterStore.ResetRestoresDefault` | src/store/useParameterStore.ts:128-135 | resetParam sets value to null on every parameter with the id and keeps `defaultValue`; that parameter is then not overridden and reads its default |
| `ParameterStore.OverrideWithDefaultIsReset` | src/store/useParameterStore.ts:112 | overriding parameters with their own default computes the same calculation values as resetting them |
| `ParameterStore.WithoutCalculation` | src/store/useParameterStore.ts:166-171 | removeCalculation keeps exactly the calculations whose id differs |
| `ParameterStore.WithoutCalculationSplits` | src/store/useParameterStore.ts:169 | removal works piecewise over a concatenation, so the survivors keep their order |
| `ParameterStore.WithoutAbsentCalculation` | src/store/useParameterStore.ts:169 | removing an id that no calculation carries leaves the list unchanged |
| `ParameterStore.FindIndex` | src/store/useParameterStore.ts:59 | `findIndex` gives -1 exactly when the id is absent, otherwise the first position carrying it |
| `ParameterStore.Applied` | src/store/useParameterStore.ts:58-76 | one patch keeps the parameter count and ids; an update keeps the calculation count and ids; a create appends its payload and changes nothing else |
| `ParameterStore.AppliedMeaning` | src/store/useParameterStore.ts:58-72 | an update changes the named field on the first parameter with the id and, independently, on the first calculation with the id, and nothing else; a `formula` update leaves a parameter's modelled fields as they were (see Left out) |
| `ParameterStore.UpdateOfUnknownId` | src/store/useParameterStore.ts:58-73 | an update whose id matches no parameter and no calculation changes no entity |
| `ParameterStore.ApplyAll` | src/store/useParameterStore.ts:57-77 | folding a batch keeps the parameter ids, keeps the ids of existing calculations, and grows the calculation list by the number of creates |
| `ParameterStore.ApplyAllConcat` | src/store/useParameterStore.ts:57 | applying a batch `a + b` equals applying `a` and then `b`: patches take effect in list order |
| `ParameterStore.CreatesAppendInOrder` | src/store/useParameterStore.ts:74-76 | a batch of creates appends the payloads to the end of the list, in batch order |
| `ParameterStore.Rolledback` | src/store/useParameterStore.ts:89-99 | the queue after rollback is a prefix of the old queue: `min(k, length)` entries for `k >= 0`; one fewer entry with no index; unchanged for a negative index or an empty queue with no index |
| `ParameterStore.RollbackLastIsLastIndex` | src/store/useParameterStore.ts:91 | rollback with no index equals rollback at the last index and drops exactly the last entry |
| `ParameterStore.RollbackFromEntry` | src/components/PendingChanges.tsx:100 | undoing entry k keeps the first k entries; rollback(0), "Clear All", empties the queue |
| `ParameterStore.RollbackTwice` | src/store/useParameterStore.ts:96 | two rollbacks keep the shorter prefix |
| `ParameterStore.WithLevel` | src/store/useParameterStore.ts:38-49 | setHierarchy at level 1..4 sets exactly the matching slot and keeps the other three, downstream slots included; any other level keeps the hierarchy |
| `ParameterStore.Store.Persisted` | src/store/useParameterStore.ts:175-180 | the persisted projection holds the hierarchy, parameters, calculations and step, and not the patch queue |
| `ParameterStore.Store.constructor` | src/store/useParameterStore.ts:32-36 | the initial state is an empty hierarchy, the seed parameters, no calculations, no patches and step 1 |
| `ParameterStore.Store.SetHierarchy` | src/store/useParameterStore.ts:38-49 | the hierarchy becomes `WithLevel` of the old one; parameters, calculations, patches and step are untouched |
| `ParameterStore.Store.SubstituteParameters` | src/store/useParameterStore.ts:110-114 | the per-parameter replacement loop yields the formula with every id replaced, in list order, by its effective value |
| `ParameterStore.Store.Recalc` | src/store/useParameterStore.ts:105-126 | the calculations become `Recalculated` of the old ones; parameters and everything else are untouched |
| `ParameterStore.Store.ApplyOne` | src/store/useParameterStore.ts:58-76 | the in-place body of the patch loop leaves the lists equal to `Applied` of the old ones, and the queue, hierarchy and step untouched |
| `ParameterStore.Store.ApplyBatch` | src/store/useParameterStore.ts:57-77 | the patch loop leaves the lists equal to `ApplyAll` of the old ones over the batch, in order |
| `ParameterStore.Store.ApplyPatch` | src/store/useParameterStore.ts:51-87 | a single patch is a one-element batch; the batch is folded in order, the queue becomes the old queue followed by the batch, and recalc runs once, on the result |
| `ParameterStore.Store.Rollback` | src/store/useParameterStore.ts:89-99 | the queue becomes `Rolledback` of the old one; the persisted state (hierarchy, parameters, calculations, step) is unchanged, so no mutation is undone |
| `ParameterStore.Store.CommitPatches` | src/store/useParameterStore.ts:101-103 | the queue becomes empty; the projection that `partialize` persists (lines 175-180, never the queue) is unchanged |
| `ParameterStore.Store.ResetParam` | src/store/useParameterStore.ts:128-135 | the parameters become the list with value null for the id; nothing else changes and recalc is not run |
| `ParameterStore.Store.SetCurrentStep` | src/store/useParameterStore.ts:137-139 | only the step changes |
| `ParameterStore.Store.UpdateParameter` | src/store/useParameterStore.ts:141-148 | the parameters become `UpdatedParameters` of the old ones; nothing else changes |
| `ParameterStore.Store.UpdateCalculation` | src/store/useParameterStore.ts:150-157 | the calculations become `UpdatedCalculations` of the old ones; nothing else changes |
| `ParameterStore.Store.AddCalculation` | src/store/useParameterStore.ts:159-164 | the calculation is appended at the end; nothing else changes |
| `ParameterStore.Store.RemoveCalculation` | src/store/useParameterStore.ts:166-171 | the calculations become `WithoutCalculation` of the old ones; nothing else changes |
| `CalcBuilder.Prefill` | src/components/CalcBuilderModal.tsx:35-51 | opening on a calculation copies its name, formula, units and description; otherwise all four fields are empty |
| `CalcBuilder.ValidateFormula` | src/components/CalcBuilderModal.tsx:53-66 | the check replaces every parameter id, and no calculation id, by `1` and is true exactly when evaluation does not throw |
| `CalcBuilder.ValidWithoutIds` | src/components/CalcBuilderModal.tsx:53-66 | a formula with no parameter id passes exactly when it evaluates as written without throwing |
| `CalcBuilder.Decide` | src/components/CalcBuilderModal.tsx:68-102 | the submit is rejected exactly when name or formula is empty, then exactly when the formula fails the check; otherwise it updates in edit mode and adds in create mode; units and description may be empty |
| `CalcBuilder.EditedCalculations` | src/components/CalcBuilderModal.tsx:95-99 | the four edits set name, formula, units and description of the calculations with the edited id and keep their id and value; length and the other entries are kept |
| `CalcBuilder.ResubmitPrefilledIsNoop` | src/components/CalcBuilderModal.tsx:35-51 | submitting a calculation's prefilled form unchanged leaves the list as it was |
| `CalcBuilder.NewCalculation` | src/components/CalcBuilderModal.tsx:87-93 | a created calculation carries the fresh id and no value, and opening it in the dialog gives back the submitted form |
| `CalcBuilder.HandleSubmit` | src/components/CalcBuilderModal.tsx:68-110 | a rejected submit makes no store change; an edit applies `EditedCalculations` and adds nothing; a create appends one calculation with the form's fields, the fresh id and no value |
| `StepFooter.HandleNext` | src/components/StepFooter.tsx:21-29 | with an override Next calls it and does not navigate; otherwise it goes to step s+1 when s < 5 and to the review page when s >= 5 |
| `StepFooter.HandleBack` | src/components/StepFooter.tsx:31-37 | with an override Back calls it; otherwise it goes to step s-1 when s > 1 and does nothing otherwise |
| `StepFooter.BackDisabled` | src/components/StepFooter.tsx:44 | from step 1 on, Back is disabled exactly when clicking it would do nothing |
| `StepFooter.NextLabel` | src/components/StepFooter.tsx:57 | the Next label is "Review Configuration" exactly at step 5 and "Next" otherwise |
| `StepFooter.NextThenBack` | src/components/StepFooter.tsx:21-37 | within steps 1..4, Next then Back returns to the starting step |
| `StepFooter.NextStaysInWizard` | src/components/StepFooter.tsx:24-28 | from steps 1..5, Next leads to a step in 2..5 or to the review page |
| `StepFooter.LabelsMatchActions` | src/components/StepFooter.tsx:57 | within steps 1..5, the Next label names the review exactly when Next goes there |
| `WizardLayout.StepsAreOneToFive` | src/components/WizardLayout.tsx:9-15 | there are exactly five steps, numbered 1 to 5 |
| `WizardLayout.RouteStep` | src/components/WizardLayout.tsx:20 | a missing route step defaults to 1 |
| `WizardLayout.SyncCurrentStep` | src/components/WizardLayout.tsx:23-25 | the store's step is set to the route step and nothing else changes |
| `WizardLayout.StepClick` | src/components/WizardLayout.tsx:27-31 | clicking step t navigates to t exactly when t is at most the current step |
| `WizardLayout.Progress` | src/components/WizardLayout.tsx:33 | progress is current * 100 / 5, that is current * 20 |
| `WizardLayout.ProgressInRange` | src/components/WizardLayout.tsx:33 | progress lies in (0, 100] exactly for steps 1..5, and is 100 exactly on step 5 |
| `WizardLayout.Status` | src/components/WizardLayout.tsx:60-66 | a step is current iff it equals the current step, completed iff it is earlier, locked iff it is later |
| `WizardLayout.BadgeOf` | src/components/WizardLayout.tsx:75 | a step shows a check mark exactly when it is completed, and its number otherwise |
| `WizardLayout.ClickableIffNotLocked` | src/components/WizardLayout.tsx:27-31 | a step click navigates exactly when the step is not locked |
| `HierarchySelector.ChildOptions` | src/components/HierarchySelector.tsx:20 | a level's options are the table entry of the parent id; they are empty when the parent is unset, empty or missing from the table |
| `HierarchySelector.Options` | src/components/HierarchySelector.tsx:15-28 | level 1 offers the full industry list; levels 2, 3 and 4 offer the entry keyed by the industry, technology or solution id; any other level offers nothing |
| `HierarchySelector.CurrentValue` | src/components/HierarchySelector.tsx:30-43 | the shown value is the level's hierarchy slot, or empty when it is unset or the level is outside 1..4 |
| `HierarchySelector.OnValueChange` | src/components/HierarchySelector.tsx:74 | choosing an option calls setHierarchy with the selector's level and the option's id |
| `HierarchySelector.ChosenValueIsShown` | src/components/HierarchySelector.tsx:30-43 | after choosing an id at level 1..4 the selector of that level shows it |
| `HierarchySelector.ChoiceDrivesNextLevel` | src/components/HierarchySelector.tsx:19-24 | choosing a non-empty id at level 1..3 makes the next level offer that id's table entry, or nothing |
| `HierarchySelector.ChoiceKeepsOtherLevels` | src/components/HierarchySelector.tsx:30-43 | choosing at one level leaves every other level's shown value, downstream levels included |

## Left out

- React rendering, animation, toasts, keyboard shortcuts and routing are not modelled. Navigation is returned as a value (`FooterAction`, `StepClick`). The footer's `disableNext` flag only passes through to the button and is not modelled.
- The evaluator is a parameter, because mathjs is a foreign library. The test mock in `src/setupTests.ts` is not taken as its contract.
- Numbers are `real`. NaN, the infinities and `Number.toString` are not modelled; the text of a number is the `render` parameter.
- Ids are treated as literal text, as the fixtures' uuids are. Regular-expression metacharacters in an id are not modelled.
- `parseInt` of the route is not modelled. The route step arrives already parsed, or absent.
- `Store.ApplyPatch`: `newValue` is typed `any` in the source. The model carries a typed change per field: a nullable number for `value`, text for `formula` and `description`. A wrongly typed value is not modelled.
- `Store.ApplyPatch`: `newState` is a shallow copy, so the index writes into `parameters` (line 61) and `calculations` (line 69) and the `push` (line 74) change arrays that the previous state shares. The model rebuilds sequences and does not capture that aliasing.
- `ParameterStore.ChangedParam`: an `update` patch with field `formula` whose id is a parameter's adds a `formula` property to that parameter (lines 61-64), which `partialize` then persists. Parameters have no such field in the model, so that property is dropped.
- `ParameterStore.RecalcIdempotent`: the evaluator is modelled as deterministic; a mathjs formula that calls `random()`, `randomInt()` or `pickRandom()` gives different values on two recalcs, which the model does not capture.
- `Store.Recalc`: the `console.error` on a failed evaluation (line 119) is not modelled; only the absent value is.
- `Store.UpdateParameter` and `Store.UpdateCalculation`: `field, value: any` is modelled as one typed edit case per key.
- localStorage persistence is not modelled. Only the `partialize` projection is kept (`Store.Persisted`).
- The assistant call (`src/lib/deepseek.ts`), the chat sidebar, the pending-changes list, the grids, the review page and the step pages are display and wiring; they are not part of this model. `tcoParameters` is never loaded by the store and is not modelled.
