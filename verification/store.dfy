// The configuration store (src/store/useParameterStore.ts): hierarchy selection,
// parameters, calculations, the patch queue and the wizard step, with its actions.

module ParameterStore {
  import opened Types
  import opened Text

  // ---------------------------------------------------------------------------
  // Effective values and formula substitution (recalc, lines 105-126)
  // ---------------------------------------------------------------------------

  /** `value ?? defaultValue ?? 0`: the number substituted for a parameter's id. */
  function Effective(p: Parameter): (r: Number)
    ensures p.value.Some? ==> r == p.value.value
    ensures p.value.None? && p.defaultValue.Some? ==> r == p.defaultValue.value
    ensures p.value.None? && p.defaultValue.None? ==> r == 0.0
  {
    p.value.OrElse(p.defaultValue.OrElse(0.0))
  }

  /** A parameter shows as overridden when it has a value that differs from its default
      (src/components/ParamGrid.tsx:23). */
  predicate Overridden(p: Parameter): (b: bool)
    ensures b ==> p.value == Some(Effective(p)) && p.value != p.defaultValue
    ensures !b ==> Effective(p) == p.defaultValue.OrElse(0.0)
  {
    p.value.Some? && p.value != p.defaultValue
  }

  function ParamIds(ps: seq<Parameter>): seq<string> {
    seq(|ps|, i requires 0 <= i < |ps| => ps[i].id)
  }

  function CalcIds(cs: seq<Calculation>): seq<string> {
    seq(|cs|, i requires 0 <= i < |cs| => cs[i].id)
  }

  /** The (id, text) pairs recalc substitutes, in parameter-list order. */
  function ValueBindings(ps: seq<Parameter>, render: Number -> string): seq<(string, string)> {
    seq(|ps|, i requires 0 <= i < |ps| => (ps[i].id, render(Effective(ps[i]))))
  }

  /** A calculation's value is the evaluator's result when that result is a number,
      and absent when evaluation threw or produced something else. */
  function ResultValue(e: Evaluation): Option<Number> {
    if e.Numeric? then Some(e.result) else None
  }

  function FormulaValue(formula: string, ps: seq<Parameter>,
                        evaluate: string -> Evaluation, render: Number -> string): Option<Number>
  {
    ResultValue(evaluate(ReplaceEach(formula, ValueBindings(ps, render))))
  }

  /** Every calculation with its value recomputed; nothing but the values changes. */
  function Recalculated(cs: seq<Calculation>, ps: seq<Parameter>,
                        evaluate: string -> Evaluation, render: Number -> string): (r: seq<Calculation>)
    ensures |r| == |cs|
    ensures forall i :: 0 <= i < |cs| ==>
      r[i] == cs[i].(value := r[i].value) &&
      r[i].value == FormulaValue(cs[i].formula, ps, evaluate, render)
  {
    if cs == [] then []
    else [cs[0].(value := FormulaValue(cs[0].formula, ps, evaluate, render))]
         + Recalculated(cs[1..], ps, evaluate, render)
  }

  /** Recomputing twice gives what recomputing once gives. */
  lemma RecalcIdempotent(cs: seq<Calculation>, ps: seq<Parameter>,
                         evaluate: string -> Evaluation, render: Number -> string)
    ensures Recalculated(Recalculated(cs, ps, evaluate, render), ps, evaluate, render)
         == Recalculated(cs, ps, evaluate, render)
  {
  }

  /** Only ids and effective values of parameters matter to recalc: two parameter
      lists that agree on them give the same calculation values. */
  lemma RecalcSeesOnlyEffectiveValues(cs: seq<Calculation>, ps: seq<Parameter>, qs: seq<Parameter>,
                                      evaluate: string -> Evaluation, render: Number -> string)
    requires |ps| == |qs|
    requires forall i :: 0 <= i < |ps| ==> ps[i].id == qs[i].id && Effective(ps[i]) == Effective(qs[i])
    ensures Recalculated(cs, ps, evaluate, render) == Recalculated(cs, qs, evaluate, render)
  {
  }

  /** A formula in which no parameter id occurs is evaluated as written. */
  lemma RecalcOfFormulaWithoutIds(formula: string, ps: seq<Parameter>,
                                  evaluate: string -> Evaluation, render: Number -> string)
    requires forall i :: 0 <= i < |ps| ==> ps[i].id != [] && !Occurs(ps[i].id, formula)
    ensures FormulaValue(formula, ps, evaluate, render) == ResultValue(evaluate(formula))
  {
    var b := ValueBindings(ps, render);
    assert forall k :: 0 <= k < |b| ==> b[k].0 == ps[k].id;
    ReplaceEachAbsent(formula, b);
  }

  // ---------------------------------------------------------------------------
  // Id-keyed list edits (lines 128-171)
  // ---------------------------------------------------------------------------

  /** `updateParameter(id, field, value)`: one case per key of a parameter. */
  datatype ParamEdit =
    | SetParamId(id: string)
    | SetParamName(name: string)
    | SetParamLevel(level: Level)
    | SetParamUnits(units: string)
    | SetParamDefault(defaultValue: Option<Number>)
    | SetParamValue(value: Option<Number>)
    | SetParamDescription(description: string)

  /** `updateCalculation(id, field, value)`: one case per key of a calculation. */
  datatype CalcEdit =
    | SetCalcId(id: string)
    | SetCalcName(name: string)
    | SetCalcFormula(formula: string)
    | SetCalcUnits(units: string)
    | SetCalcDescription(description: string)
    | SetCalcValue(value: Option<Number>)

  function EditParam(p: Parameter, e: ParamEdit): Parameter {
    match e
    case SetParamId(x) => p.(id := x)
    case SetParamName(x) => p.(name := x)
    case SetParamLevel(x) => p.(level := x)
    case SetParamUnits(x) => p.(units := x)
    case SetParamDefault(x) => p.(defaultValue := x)
    case SetParamValue(x) => p.(value := x)
    case SetParamDescription(x) => p.(description := x)
  }

  function EditCalc(c: Calculation, e: CalcEdit): Calculation {
    match e
    case SetCalcId(x) => c.(id := x)
    case SetCalcName(x) => c.(name := x)
    case SetCalcFormula(x) => c.(formula := x)
    case SetCalcUnits(x) => c.(units := x)
    case SetCalcDescription(x) => c.(description := x)
    case SetCalcValue(x) => c.(value := x)
  }

  /** The parameter list with the edit made to every parameter carrying `id`. */
  function UpdatedParameters(ps: seq<Parameter>, id: string, e: ParamEdit): (r: seq<Parameter>)
    ensures |r| == |ps|
    ensures forall i :: 0 <= i < |ps| ==>
      r[i] == if ps[i].id == id then EditParam(ps[i], e) else ps[i]
  {
    if ps == [] then []
    else [if ps[0].id == id then EditParam(ps[0], e) else ps[0]] + UpdatedParameters(ps[1..], id, e)
  }

  /** The calculation list with the edit made to every calculation carrying `id`. */
  function UpdatedCalculations(cs: seq<Calculation>, id: string, e: CalcEdit): (r: seq<Calculation>)
    ensures |r| == |cs|
    ensures forall i :: 0 <= i < |cs| ==>
      r[i] == if cs[i].id == id then EditCalc(cs[i], e) else cs[i]
  {
    if cs == [] then []
    else [if cs[0].id == id then EditCalc(cs[0], e) else cs[0]] + UpdatedCalculations(cs[1..], id, e)
  }

  /** Resetting clears the override of every parameter carrying the id and keeps its default,
      so it then reads its default value. */
  lemma ResetRestoresDefault(ps: seq<Parameter>, id: string)
    ensures var r := UpdatedParameters(ps, id, SetParamValue(None));
      forall i :: 0 <= i < |ps| && ps[i].id == id ==>
        r[i].defaultValue == ps[i].defaultValue && !Overridden(r[i]) &&
        Effective(r[i]) == ps[i].defaultValue.OrElse(0.0)
  {
  }

  /** Overriding a parameter with its own default value computes what resetting it computes. */
  lemma OverrideWithDefaultIsReset(cs: seq<Calculation>, ps: seq<Parameter>, id: string, d: Number,
                                   evaluate: string -> Evaluation, render: Number -> string)
    requires forall i :: 0 <= i < |ps| && ps[i].id == id ==> ps[i].defaultValue == Some(d)
    ensures Recalculated(cs, UpdatedParameters(ps, id, SetParamValue(Some(d))), evaluate, render)
         == Recalculated(cs, UpdatedParameters(ps, id, SetParamValue(None)), evaluate, render)
  {
    RecalcSeesOnlyEffectiveValues(cs, UpdatedParameters(ps, id, SetParamValue(Some(d))),
                                  UpdatedParameters(ps, id, SetParamValue(None)), evaluate, render);
  }

  /** `filter(calc => calc.id !== id)`. */
  function WithoutCalculation(cs: seq<Calculation>, id: string): (r: seq<Calculation>)
    ensures |r| <= |cs|
    ensures forall c :: c in r <==> c in cs && c.id != id
  {
    if cs == [] then []
    else if cs[0].id == id then WithoutCalculation(cs[1..], id)
    else [cs[0]] + WithoutCalculation(cs[1..], id)
  }

  /** Removal keeps the surviving calculations in their order: it works piece by piece. */
  lemma {:induction false} WithoutCalculationSplits(a: seq<Calculation>, b: seq<Calculation>, id: string)
    ensures WithoutCalculation(a + b, id) == WithoutCalculation(a, id) + WithoutCalculation(b, id)
  {
    if a == [] {
      assert a + b == b;
    } else {
      assert (a + b)[1..] == a[1..] + b;
      WithoutCalculationSplits(a[1..], b, id);
    }
  }

  /** Removing an id that no calculation carries changes nothing. */
  lemma {:induction false} WithoutAbsentCalculation(cs: seq<Calculation>, id: string)
    requires forall i :: 0 <= i < |cs| ==> cs[i].id != id
    ensures WithoutCalculation(cs, id) == cs
  {
    if cs != [] {
      WithoutAbsentCalculation(cs[1..], id);
    }
  }

  // ---------------------------------------------------------------------------
  // Patches (lines 51-87)
  // ---------------------------------------------------------------------------

  /** `findIndex(x => x.id === id)`: the first position carrying the id, or -1. */
  function FindIndex(ids: seq<string>, id: string): (r: int)
    ensures -1 <= r < |ids|
    ensures r == -1 <==> id !in ids
    ensures r >= 0 ==> ids[r] == id && id !in ids[..r]
  {
    if ids == [] then -1
    else if ids[0] == id then 0
    else
      var k := FindIndex(ids[1..], id);
      if k == -1 then -1 else k + 1
  }

  /** i is the first position carrying the id. */
  predicate IsFirstWithId(ids: seq<string>, i: int, id: string) {
    0 <= i < |ids| && ids[i] == id && forall j :: 0 <= j < i ==> ids[j] != id
  }

  /** What an update patch does to a parameter: `formula` is not a parameter field. */
  function ChangedParam(p: Parameter, ch: PatchChange): Parameter {
    match ch
    case ChangeValue(v) => p.(value := v)
    case ChangeFormula(_) => p
    case ChangeDescription(d) => p.(description := d)
  }

  function ChangedCalc(c: Calculation, ch: PatchChange): Calculation {
    match ch
    case ChangeValue(v) => c.(value := v)
    case ChangeFormula(f) => c.(formula := f)
    case ChangeDescription(d) => c.(description := d)
  }

  datatype Entities = Entities(parameters: seq<Parameter>, calculations: seq<Calculation>)

  /** One patch folded into the lists, as the `forEach` body does. */
  function Applied(e: Entities, p: Patch): (r: Entities)
    ensures |r.parameters| == |e.parameters| && ParamIds(r.parameters) == ParamIds(e.parameters)
    ensures p.Create? ==> r == Entities(e.parameters, e.calculations + [p.payload])
    ensures p.Update? ==>
      |r.calculations| == |e.calculations| && CalcIds(r.calculations) == CalcIds(e.calculations)
  {
    match p
    case Update(id, ch) =>
      var pi := FindIndex(ParamIds(e.parameters), id);
      var ci := FindIndex(CalcIds(e.calculations), id);
      Entities(
        if pi != -1 then e.parameters[pi := ChangedParam(e.parameters[pi], ch)] else e.parameters,
        if ci != -1 then e.calculations[ci := ChangedCalc(e.calculations[ci], ch)] else e.calculations)
    case Create(c) =>
      Entities(e.parameters, e.calculations + [c])
  }

  /** What an update does: it touches the first parameter and, on its own, the first
      calculation carrying its id, and nothing else. */
  lemma AppliedMeaning(e: Entities, p: Patch)
    ensures p.Update? ==> var r := Applied(e, p);
      (forall i :: 0 <= i < |e.parameters| ==>
        r.parameters[i] == if IsFirstWithId(ParamIds(e.parameters), i, p.id)
                           then ChangedParam(e.parameters[i], p.change) else e.parameters[i]) &&
      (forall i :: 0 <= i < |e.calculations| ==>
        r.calculations[i] == if IsFirstWithId(CalcIds(e.calculations), i, p.id)
                             then ChangedCalc(e.calculations[i], p.change) else e.calculations[i])
  {
  }

  /** An update whose id no parameter and no calculation carries changes no entity. */
  lemma UpdateOfUnknownId(e: Entities, id: string, ch: PatchChange)
    requires id !in ParamIds(e.parameters) && id !in CalcIds(e.calculations)
    ensures Applied(e, Update(id, ch)) == e
  {
  }

  /** How many patches of the list create a calculation. */
  function CreateCount(ps: seq<Patch>): nat {
    if ps == [] then 0 else (if ps[|ps| - 1].Create? then 1 else 0) + CreateCount(ps[..|ps| - 1])
  }

  /** The patches folded in list order. */
  function ApplyAll(e: Entities, ps: seq<Patch>): (r: Entities)
    ensures ParamIds(r.parameters) == ParamIds(e.parameters)
    ensures |r.calculations| == |e.calculations| + CreateCount(ps)
    ensures CalcIds(r.calculations)[..|e.calculations|] == CalcIds(e.calculations)
  {
    if ps == [] then e
    else
      var before := ApplyAll(e, ps[..|ps| - 1]);
      var r := Applied(before, ps[|ps| - 1]);
      assert CalcIds(r.calculations)[..|before.calculations|] == CalcIds(before.calculations);
      assert CalcIds(r.calculations)[..|e.calculations|]
          == CalcIds(before.calculations)[..|e.calculations|];
      r
  }

  /** Applying a + b is applying a, then b. */
  lemma {:induction false} ApplyAllConcat(e: Entities, a: seq<Patch>, b: seq<Patch>)
    ensures ApplyAll(e, a + b) == ApplyAll(ApplyAll(e, a), b)
    decreases |b|
  {
    if b == [] {
      assert a + b == a;
    } else {
      var b' := b[..|b| - 1];
      assert (a + b)[..|a + b| - 1] == a + b';
      assert (a + b)[|a + b| - 1] == b[|b| - 1];
      ApplyAllConcat(e, a, b');
    }
  }

  function Payloads(ps: seq<Patch>): seq<Calculation>
    requires forall i :: 0 <= i < |ps| ==> ps[i].Create?
  {
    seq(|ps|, i requires 0 <= i < |ps| => ps[i].payload)
  }

  /** A batch of creates appends their payloads to the calculation list, in batch order. */
  lemma {:induction false} CreatesAppendInOrder(e: Entities, ps: seq<Patch>)
    requires forall i :: 0 <= i < |ps| ==> ps[i].Create?
    ensures ApplyAll(e, ps) == Entities(e.parameters, e.calculations + Payloads(ps))
  {
    if ps == [] {
      assert e.calculations + Payloads(ps) == e.calculations;
    } else {
      var init := ps[..|ps| - 1];
      CreatesAppendInOrder(e, init);
      assert Payloads(ps) == Payloads(init) + [ps[|ps| - 1].payload];
    }
  }

  /** `Patch | Patch[]`. */
  datatype PatchArg = Single(patch: Patch) | Batch(patches: seq<Patch>)

  /** `Array.isArray(patch) ? patch : [patch]`. */
  function AsList(arg: PatchArg): seq<Patch> {
    match arg
    case Single(p) => [p]
    case Batch(ps) => ps
  }

  // ---------------------------------------------------------------------------
  // Rollback (lines 89-99)
  // ---------------------------------------------------------------------------

  function Min(a: int, b: int): int { if a <= b then a else b }

  /** The queue after `rollback(idx)`: `idx ?? length - 1` is the cut; a negative cut keeps it all. */
  function Rolledback(q: seq<Patch>, idx: Option<int>): (r: seq<Patch>)
    ensures r <= q
    ensures idx.Some? && idx.value >= 0 ==> |r| == Min(idx.value, |q|)
    ensures idx.Some? && idx.value < 0 ==> r == q
    ensures idx.None? && q != [] ==> |r| == |q| - 1
    ensures idx.None? && q == [] ==> r == q
  {
    var target := idx.OrElse(|q| - 1);
    if target < 0 then q else q[..Min(target, |q|)]
  }

  /** Rolling back with no index drops the last entry, as the last index does. */
  lemma RollbackLastIsLastIndex(q: seq<Patch>)
    requires q != []
    ensures Rolledback(q, None) == Rolledback(q, Some(|q| - 1)) == q[..|q| - 1]
  {
  }

  /** Undoing entry k drops it and every later entry; "Clear All" is the undo of entry 0
      (src/components/PendingChanges.tsx:52, 100). */
  lemma RollbackFromEntry(q: seq<Patch>, k: nat)
    requires k < |q|
    ensures Rolledback(q, Some(k)) == q[..k]
    ensures Rolledback(q, Some(0)) == []
  {
  }

  /** Two successive rollbacks keep the shorter prefix. */
  lemma RollbackTwice(q: seq<Patch>, j: nat, k: nat)
    ensures Rolledback(Rolledback(q, Some(j)), Some(k)) == Rolledback(q, Some(Min(j, k)))
  {
  }

  // ---------------------------------------------------------------------------
  // Hierarchy (lines 38-49)
  // ---------------------------------------------------------------------------

  /** The hierarchy with the slot of `level` set to `id`; any other level leaves it as it was. */
  function WithLevel(h: Hierarchy, level: int, id: string): (r: Hierarchy)
    ensures forall l :: Slot(r, l) == if 1 <= l <= 4 && l == level then Some(id) else Slot(h, l)
    ensures !(1 <= level <= 4) ==> r == h
  {
    if level == 1 then h.(industryId := Some(id))
    else if level == 2 then h.(technologyId := Some(id))
    else if level == 3 then h.(solutionId := Some(id))
    else if level == 4 then h.(variantId := Some(id))
    else h
  }

  // ---------------------------------------------------------------------------
  // The store
  // ---------------------------------------------------------------------------

  /** The projection `partialize` writes to storage: never the patch queue (lines 175-180). */
  datatype PersistedState = PersistedState(
    hierarchy: Hierarchy,
    parameters: seq<Parameter>,
    calculations: seq<Calculation>,
    currentStep: int)

  class Store {
    var hierarchy: Hierarchy
    var parameters: seq<Parameter>
    var calculations: seq<Calculation>
    var patches: seq<Patch>
    var currentStep: int
    /** mathjs `evaluate`, a library outside this model. */
    const evaluate: string -> Evaluation
    /** `Number.prototype.toString`. */
    const render: Number -> string

    /** The initial state (lines 32-36): empty hierarchy, the seed parameters, no calculations,
        no patches, step 1. */
    constructor (seed: seq<Parameter>, evaluate: string -> Evaluation, render: Number -> string)
      ensures hierarchy == EmptyHierarchy && parameters == seed && calculations == []
      ensures patches == [] && currentStep == 1
      ensures this.evaluate == evaluate && this.render == render
    {
      hierarchy := EmptyHierarchy;
      parameters := seed;
      calculations := [];
      patches := [];
      currentStep := 1;
      this.evaluate := evaluate;
      this.render := render;
    }

    /** What `partialize` keeps: everything but the patch queue. */
    function Persisted(): (r: PersistedState)
      reads this
      ensures r.hierarchy == hierarchy && r.parameters == parameters
      ensures r.calculations == calculations && r.currentStep == currentStep
    {
      PersistedState(hierarchy, parameters, calculations, currentStep)
    }

    method SetHierarchy(level: int, id: string)
      modifies this
      ensures hierarchy == WithLevel(old(hierarchy), level, id)
      ensures parameters == old(parameters) && calculations == old(calculations)
      ensures patches == old(patches) && currentStep == old(currentStep)
    {
      var h := hierarchy;
      if level == 1 { h := h.(industryId := Some(id)); }
      if level == 2 { h := h.(technologyId := Some(id)); }
      if level == 3 { h := h.(solutionId := Some(id)); }
      if level == 4 { h := h.(variantId := Some(id)); }
      hierarchy := h;
    }

    /** The formula with each parameter id replaced, in list order, by its effective value. */
    method SubstituteParameters(formula: string) returns (r: string)
      ensures r == ReplaceEach(formula, ValueBindings(parameters, render))
    {
      var bindings := ValueBindings(parameters, render);
      r := formula;
      var i := 0;
      while i < |parameters|
        invariant 0 <= i <= |parameters|
        invariant ReplaceEach(r, bindings[i..]) == ReplaceEach(formula, bindings)
      {
        var param := parameters[i];
        var value := Effective(param);
        assert bindings[i..][1..] == bindings[i + 1..];
        r := ReplaceAll(r, param.id, render(value));
        i := i + 1;
      }
    }

    method Recalc()
      modifies this
      ensures calculations == Recalculated(old(calculations), parameters, evaluate, render)
      ensures hierarchy == old(hierarchy) && parameters == old(parameters)
      ensures patches == old(patches) && currentStep == old(currentStep)
    {
      var updated: seq<Calculation> := [];
      var i := 0;
      while i < |calculations|
        invariant unchanged(this)
        invariant 0 <= i <= |calculations| && |updated| == i
        invariant forall j :: 0 <= j < i ==>
          updated[j] == calculations[j].(value := FormulaValue(calculations[j].formula, parameters, evaluate, render))
      {
        var current := calculations[i];
        var formula := SubstituteParameters(current.formula);
        var result := evaluate(formula);
        updated := updated + [current.(value := ResultValue(result))];
        i := i + 1;
      }
      calculations := updated;
    }

    /** The body of the `forEach` over a batch (lines 58-76): one patch folded in place. */
    method ApplyOne(p: Patch)
      modifies this
      ensures Entities(parameters, calculations) == Applied(Entities(old(parameters), old(calculations)), p)
      ensures hierarchy == old(hierarchy) && patches == old(patches) && currentStep == old(currentStep)
    {
      match p {
        case Update(id, change) =>
          var paramIndex := FindIndex(ParamIds(parameters), id);
          if paramIndex != -1 {
            parameters := parameters[paramIndex := ChangedParam(parameters[paramIndex], change)];
          }
          var calcIndex := FindIndex(CalcIds(calculations), id);
          if calcIndex != -1 {
            calculations := calculations[calcIndex := ChangedCalc(calculations[calcIndex], change)];
          }
        case Create(payload) =>
          calculations := calculations + [payload];
      }
    }

    /** The `forEach` over a batch (lines 57-77): the patches folded in list order. */
    method ApplyBatch(batch: seq<Patch>)
      modifies this
      ensures Entities(parameters, calculations) == ApplyAll(Entities(old(parameters), old(calculations)), batch)
      ensures hierarchy == old(hierarchy) && patches == old(patches) && currentStep == old(currentStep)
    {
      ghost var start := Entities(parameters, calculations);
      var i := 0;
      while i < |batch|
        invariant 0 <= i <= |batch|
        invariant Entities(parameters, calculations) == ApplyAll(start, batch[..i])
        invariant hierarchy == old(hierarchy) && currentStep == old(currentStep)
        invariant patches == old(patches)
      {
        assert batch[..i + 1][..i] == batch[..i];
        ApplyOne(batch[i]);
        i := i + 1;
      }
      assert batch[..|batch|] == batch;
    }

    method ApplyPatch(arg: PatchArg)
      modifies this
      ensures var e := ApplyAll(Entities(old(parameters), old(calculations)), AsList(arg));
        parameters == e.parameters &&
        calculations == Recalculated(e.calculations, e.parameters, evaluate, render)
      ensures patches == old(patches) + AsList(arg)
      ensures hierarchy == old(hierarchy) && currentStep == old(currentStep)
    {
      var batch := AsList(arg);
      ApplyBatch(batch);
      patches := patches + batch;
      Recalc();
    }

    method Rollback(idx: Option<int>)
      modifies this
      ensures patches == Rolledback(old(patches), idx)
      ensures Persisted() == old(Persisted())
    {
      var targetIndex := idx.OrElse(|patches| - 1);
      if targetIndex < 0 {
        return;
      }
      patches := patches[..Min(targetIndex, |patches|)];
    }

    method CommitPatches()
      modifies this
      ensures patches == []
      ensures Persisted() == old(Persisted())
    {
      patches := [];
    }

    method ResetParam(id: string)
      modifies this
      ensures parameters == UpdatedParameters(old(parameters), id, SetParamValue(None))
      ensures hierarchy == old(hierarchy) && calculations == old(calculations)
      ensures patches == old(patches) && currentStep == old(currentStep)
    {
      parameters := UpdatedParameters(parameters, id, SetParamValue(None));
    }

    method SetCurrentStep(step: int)
      modifies this
      ensures currentStep == step
      ensures hierarchy == old(hierarchy) && parameters == old(parameters)
      ensures calculations == old(calculations) && patches == old(patches)
    {
      currentStep := step;
    }

    method UpdateParameter(id: string, edit: ParamEdit)
      modifies this
      ensures parameters == UpdatedParameters(old(parameters), id, edit)
      ensures hierarchy == old(hierarchy) && calculations == old(calculations)
      ensures patches == old(patches) && currentStep == old(currentStep)
    {
      parameters := UpdatedParameters(parameters, id, edit);
    }

    method UpdateCalculation(id: string, edit: CalcEdit)
      modifies this
      ensures calculations == UpdatedCalculations(old(calculations), id, edit)
      ensures hierarchy == old(hierarchy) && parameters == old(parameters)
      ensures patches == old(patches) && currentStep == old(currentStep)
    {
      calculations := UpdatedCalculations(calculations, id, edit);
    }

    method AddCalculation(calculation: Calculation)
      modifies this
      ensures calculations == old(calculations) + [calculation]
      ensures hierarchy == old(hierarchy) && parameters == old(parameters)
      ensures patches == old(patches) && currentStep == old(currentStep)
    {
      calculations := calculations + [calculation];
    }

    method RemoveCalculation(id: string)
      modifies this
      ensures calculations == WithoutCalculation(old(calculations), id)
      ensures hierarchy == old(hierarchy) && parameters == old(parameters)
      ensures patches == old(patches) && currentStep == old(currentStep)
    {
      calculations := WithoutCalculation(calculations, id);
    }
  }
}
