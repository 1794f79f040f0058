/** The preference payload carried by the camera and area requests
    (the `UserPreferences` record) and its validation. */
module Preferences {
  import opened Wrappers

  const MinPriority: int := 1
  const MaxPriority: int := 5

  /** A validated priority weight. */
  type Priority = w: int | MinPriority <= w <= MaxPriority witness MinPriority

  /** A preference payload that passed validation: four weights in 1..5 and two
      free-text lists (empty when the client leaves them out). */
  datatype UserPreferences = UserPreferences(
    transportationPriority: Priority,
    facilitiesPriority: Priority,
    lifestylePriority: Priority,
    budgetPriority: Priority,
    specificFacilities: seq<string>,
    transportationTypes: seq<string>)

  /** The four weighted categories, in the order every prompt lists them. */
  datatype Category = Transportation | Facilities | Lifestyle | Budget

  function Weight(p: UserPreferences, c: Category): Priority {
    match c
    case Transportation => p.transportationPriority
    case Facilities => p.facilitiesPriority
    case Lifestyle => p.lifestylePriority
    case Budget => p.budgetPriority
  }

  /** The payload as the client sends it, before the record's field checks. */
  datatype RawPreferences = RawPreferences(
    transportationPriority: int,
    facilitiesPriority: int,
    lifestylePriority: int,
    budgetPriority: int,
    specificFacilities: Option<seq<string>>,
    transportationTypes: Option<seq<string>>)

  /** The rejection: the names of the weight fields that are out of range. */
  datatype ValidationError = ValidationError(fields: seq<string>)

  predicate InRange(w: int) {
    MinPriority <= w <= MaxPriority
  }

  /** A list field's value, the empty list when it is left out. */
  function OrEmpty(xs: Option<seq<string>>): seq<string> {
    if xs.Some? then xs.value else []
  }

  function Check(name: string, w: int): seq<string> {
    if InRange(w) then [] else [name]
  }

  /** Validation of the record: every weight must lie in 1..5 (`ge=1, le=5`);
      a missing list defaults to the empty list. */
  function Validate(raw: RawPreferences): (r: Result<UserPreferences, ValidationError>)
    ensures r.Ok? <==> InRange(raw.transportationPriority) && InRange(raw.facilitiesPriority)
                       && InRange(raw.lifestylePriority) && InRange(raw.budgetPriority)
    ensures r.Ok? ==> r.value.transportationPriority == raw.transportationPriority
    ensures r.Ok? ==> r.value.facilitiesPriority == raw.facilitiesPriority
    ensures r.Ok? ==> r.value.lifestylePriority == raw.lifestylePriority
    ensures r.Ok? ==> r.value.budgetPriority == raw.budgetPriority
    ensures r.Ok? ==> r.value.specificFacilities == OrEmpty(raw.specificFacilities)
    ensures r.Ok? ==> r.value.transportationTypes == OrEmpty(raw.transportationTypes)
    ensures r.Err? ==> |r.error.fields| > 0
    ensures r.Err? ==> ("transportation_priority" in r.error.fields <==> !InRange(raw.transportationPriority))
    ensures r.Err? ==> ("facilities_priority" in r.error.fields <==> !InRange(raw.facilitiesPriority))
    ensures r.Err? ==> ("lifestyle_priority" in r.error.fields <==> !InRange(raw.lifestylePriority))
    ensures r.Err? ==> ("budget_priority" in r.error.fields <==> !InRange(raw.budgetPriority))
  {
    var bad := Check("transportation_priority", raw.transportationPriority)
             + Check("facilities_priority", raw.facilitiesPriority)
             + Check("lifestyle_priority", raw.lifestylePriority)
             + Check("budget_priority", raw.budgetPriority);
    if bad != [] then Err(ValidationError(bad))
    else Ok(UserPreferences(
      raw.transportationPriority,
      raw.facilitiesPriority,
      raw.lifestylePriority,
      raw.budgetPriority,
      OrEmpty(raw.specificFacilities),
      OrEmpty(raw.transportationTypes)))
  }
}
