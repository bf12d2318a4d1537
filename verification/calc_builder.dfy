// The calculation builder dialog (src/components/CalcBuilderModal.tsx): form prefill,
// the formula check and the submit rule that edits or adds a calculation.

module CalcBuilder {
  import opened Types
  import opened Text
  import opened ParameterStore

  /** The dialog's four text fields. */
  datatype Form = Form(name: string, formula: string, units: string, description: string)

  const EmptyForm := Form("", "", "", "")

  /** The form the dialog shows when it opens: the edited calculation's fields, or all empty
      (lines 35-51). */
  function Prefill(editCalc: Option<Calculation>): (f: Form)
    ensures editCalc.None? ==> f == EmptyForm
    ensures editCalc.Some? ==>
      var c := editCalc.value;
      f.name == c.name && f.formula == c.formula && f.units == c.units && f.description == c.description
  {
    match editCalc
    case Some(c) => Form(c.name, c.formula, c.units, c.description)
    case None => EmptyForm
  }

  /** The (id, "1") pairs of the check: parameters only, in list order. */
  function OneBindings(ps: seq<Parameter>): seq<(string, string)> {
    seq(|ps|, i requires 0 <= i < |ps| => (ps[i].id, "1"))
  }

  /** A formula passes when, with 1 put in place of every parameter id, evaluating it does
      not throw; a non-numeric result still passes. */
  predicate FormulaValid(formula: string, ps: seq<Parameter>, evaluate: string -> Evaluation) {
    evaluate(ReplaceEach(formula, OneBindings(ps))) != Threw
  }

  /** `validateFormula` (lines 53-66). */
  method ValidateFormula(formula: string, ps: seq<Parameter>, evaluate: string -> Evaluation)
    returns (ok: bool)
    ensures ok == FormulaValid(formula, ps, evaluate)
  {
    var bindings := OneBindings(ps);
    var testFormula := formula;
    var i := 0;
    while i < |ps|
      invariant 0 <= i <= |ps|
      invariant ReplaceEach(testFormula, bindings[i..]) == ReplaceEach(formula, bindings)
    {
      assert bindings[i..][1..] == bindings[i + 1..];
      testFormula := ReplaceAll(testFormula, ps[i].id, "1");
      i := i + 1;
    }
    ok := evaluate(testFormula) != Threw;
  }

  /** A formula in which no parameter id occurs passes exactly when it evaluates as written. */
  lemma ValidWithoutIds(formula: string, ps: seq<Parameter>, evaluate: string -> Evaluation)
    requires forall i :: 0 <= i < |ps| ==> ps[i].id != [] && !Occurs(ps[i].id, formula)
    ensures FormulaValid(formula, ps, evaluate) <==> evaluate(formula) != Threw
  {
    var b := OneBindings(ps);
    assert forall k :: 0 <= k < |b| ==> b[k].0 == ps[k].id;
    ReplaceEachAbsent(formula, b);
  }

  datatype SubmitOutcome = MissingField | InvalidFormula | Updated | Added

  /** What a submit does: reject a missing name or formula, then an invalid formula; otherwise
      update when editing and add when creating (lines 68-102). */
  function Decide(form: Form, editing: bool, ps: seq<Parameter>, evaluate: string -> Evaluation)
    : (r: SubmitOutcome)
    ensures r == MissingField <==> form.name == [] || form.formula == []
    ensures r == InvalidFormula <==>
      form.name != [] && form.formula != [] && !FormulaValid(form.formula, ps, evaluate)
    ensures r == Updated <==>
      form.name != [] && form.formula != [] && FormulaValid(form.formula, ps, evaluate) && editing
    ensures r == Added <==>
      form.name != [] && form.formula != [] && FormulaValid(form.formula, ps, evaluate) && !editing
  {
    if form.name == [] || form.formula == [] then MissingField
    else if !FormulaValid(form.formula, ps, evaluate) then InvalidFormula
    else if editing then Updated
    else Added
  }

  /** The four `updateCalculation` calls of an edit, in source order. */
  function EditedCalculations(cs: seq<Calculation>, id: string, form: Form): (r: seq<Calculation>)
    ensures |r| == |cs|
    ensures forall i :: 0 <= i < |cs| ==>
      r[i] == if cs[i].id == id
              then Calculation(id, form.name, form.formula, form.units, form.description, cs[i].value)
              else cs[i]
  {
    var a := UpdatedCalculations(cs, id, SetCalcName(form.name));
    var b := UpdatedCalculations(a, id, SetCalcFormula(form.formula));
    var c := UpdatedCalculations(b, id, SetCalcUnits(form.units));
    UpdatedCalculations(c, id, SetCalcDescription(form.description))
  }

  /** Submitting the prefilled form of a calculation unchanged leaves the list as it was. */
  lemma ResubmitPrefilledIsNoop(cs: seq<Calculation>, c: Calculation)
    requires forall i :: 0 <= i < |cs| && cs[i].id == c.id ==> cs[i] == c
    ensures EditedCalculations(cs, c.id, Prefill(Some(c))) == cs
  {
  }

  /** The calculation a create submit adds: the form's fields, a fresh id and no value. */
  function NewCalculation(form: Form, freshId: string): (c: Calculation)
    ensures c.id == freshId && c.value == None
    ensures Prefill(Some(c)) == form
  {
    Calculation(freshId, form.name, form.formula, form.units, form.description, None)
  }

  /** `handleSubmit`. `freshId` stands for `uuidv4()`; toasts and closing are not modelled. */
  method HandleSubmit(store: Store, form: Form, editCalc: Option<Calculation>, freshId: string)
    returns (outcome: SubmitOutcome)
    modifies store
    ensures outcome == Decide(form, editCalc.Some?, old(store.parameters), store.evaluate)
    ensures outcome == MissingField || outcome == InvalidFormula ==> unchanged(store)
    ensures outcome == Updated ==>
      store.calculations == EditedCalculations(old(store.calculations), editCalc.value.id, form)
    ensures outcome == Added ==>
      store.calculations == old(store.calculations) + [NewCalculation(form, freshId)]
    ensures store.hierarchy == old(store.hierarchy) && store.parameters == old(store.parameters)
    ensures store.patches == old(store.patches) && store.currentStep == old(store.currentStep)
  {
    if form.name == [] || form.formula == [] {
      return MissingField;
    }
    var ok := ValidateFormula(form.formula, store.parameters, store.evaluate);
    if !ok {
      return InvalidFormula;
    }
    if editCalc.Some? {
      var id := editCalc.value.id;
      store.UpdateCalculation(id, SetCalcName(form.name));
      store.UpdateCalculation(id, SetCalcFormula(form.formula));
      store.UpdateCalculation(id, SetCalcUnits(form.units));
      store.UpdateCalculation(id, SetCalcDescription(form.description));
      outcome := Updated;
    } else {
      store.AddCalculation(NewCalculation(form, freshId));
      outcome := Added;
    }
  }
}
