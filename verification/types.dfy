// The entities of the configuration store (src/types/index.ts).

module Types {

  datatype Option<+T> = None | Some(value: T) {
    /** The `??` operator: this value when present, otherwise `default`. */
    function OrElse(default: T): T {
      match this
      case Some(v) => v
      case None => default
    }
  }

  /** A JavaScript number; NaN and the infinities are not modelled. */
  type Number = real

  /** The hierarchy tier that owns a parameter. */
  type Level = n: int | 1 <= n <= 5 witness 1

  datatype Parameter = Parameter(
    id: string,
    name: string,
    level: Level,
    units: string,
    defaultValue: Option<Number>,   // `number | null`
    value: Option<Number>,          // `number | null`, null meaning "use the default"
    description: string)

  datatype Calculation = Calculation(
    id: string,
    name: string,
    formula: string,
    units: string,
    description: string,
    value: Option<Number>)          // `value?: number`, absent when evaluation failed

  /** The new value carried by an `update` patch, one case per allowed `field`. */
  datatype PatchChange =
    | ChangeValue(newValue: Option<Number>)
    | ChangeFormula(newFormula: string)
    | ChangeDescription(newDescription: string)

  datatype Patch =
    | Update(id: string, change: PatchChange)
    | Create(payload: Calculation)       // `entity: "calculation"` is the only entity

  /** The four optional selection ids; `{}` is all four absent. */
  datatype Hierarchy = Hierarchy(
    industryId: Option<string>,
    technologyId: Option<string>,
    solutionId: Option<string>,
    variantId: Option<string>)

  const EmptyHierarchy := Hierarchy(None, None, None, None)

  datatype HierarchyLevel = HierarchyLevel(id: string, name: string, description: string)

  /** The hierarchy slot that level 1..4 stands for; any other level has none. */
  function Slot(h: Hierarchy, level: int): Option<string> {
    if level == 1 then h.industryId
    else if level == 2 then h.technologyId
    else if level == 3 then h.solutionId
    else if level == 4 then h.variantId
    else None
  }

  /** What mathjs `evaluate` does with a text: throw, return a non-number, or return a number. */
  datatype Evaluation = Threw | NonNumeric | Numeric(result: Number)
}
