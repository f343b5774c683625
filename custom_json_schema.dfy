/**
  Custom JSON-Schema overrides attached to a Zod schema definition. A definition
  may carry an override under three private symbols: one for the input side,
  one for the output side, and a general one for both.
 */
module ZodCustomJsonSchema {
  import opened Wrappers

  /** Which side of a schema a JSON Schema is generated for. */
  datatype Strategy = Input | Output | Both

  /** The three private symbols under which an override is stored. */
  datatype Slot = GeneralSlot | InputSlot | OutputSlot

  /** A key of a schema definition: one of the override symbols, or an ordinary named property. */
  datatype DefKey = Symbol(slot: Slot) | Name(name: string)

  /** A Zod schema: its class, identified by name, and its definition record. */
  datatype ZodSchema<V> = ZodSchema(typeName: string, def: map<DefKey, V>)

  /** The slot a strategy names: its own side's slot, or the general slot for `Both`. */
  function StrategySlot(strategy: Strategy): Slot {
    match strategy
    case Input => InputSlot
    case Output => OutputSlot
    case Both => GeneralSlot
  }

  /** The keys a lookup consults, in order of precedence. */
  function Precedence(strategy: Strategy): (keys: seq<DefKey>)
    ensures |keys| > 0 && keys[|keys| - 1] == Symbol(GeneralSlot)
    ensures keys[0] == Symbol(StrategySlot(strategy))
  {
    match strategy
    case Input => [Symbol(InputSlot), Symbol(GeneralSlot)]
    case Output => [Symbol(OutputSlot), Symbol(GeneralSlot)]
    case Both => [Symbol(GeneralSlot)]
  }

  /** The value under the first key of `keys` present in `def`. */
  function FirstPresent<V>(def: map<DefKey, V>, keys: seq<DefKey>): (r: Option<V>)
    ensures r.None? <==> forall k :: k in keys ==> k !in def
    ensures r.Some? ==> exists i :: 0 <= i < |keys| && keys[i] in def && def[keys[i]] == r.value
                                  && forall j :: 0 <= j < i ==> keys[j] !in def
  {
    if keys == [] then None
    else if keys[0] in def then Some(def[keys[0]])
    else
      var rest := FirstPresent(def, keys[1..]);
      assert forall j :: 0 < j < |keys| ==> keys[j] == keys[1..][j - 1];
      rest
  }

  /** `getCustomJsonSchema(def, strategy)`: the strategy's own slot, else the general slot, else nothing. */
  function GetCustomJsonSchema<V>(def: map<DefKey, V>, strategy: Strategy): (r: Option<V>)
    ensures r == FirstPresent(def, Precedence(strategy))
  {
    if strategy == Input && Symbol(InputSlot) in def then
      Some(def[Symbol(InputSlot)])
    else if strategy == Output && Symbol(OutputSlot) in def then
      Some(def[Symbol(OutputSlot)])
    else if Symbol(GeneralSlot) in def then
      Some(def[Symbol(GeneralSlot)])
    else
      None
  }

  /** The slot `customJsonSchema` writes: `'input'`, `'output'`, or the general slot for `'both'` and an omitted strategy. */
  function SlotFor(strategy: Option<Strategy>): (slot: Slot)
    ensures strategy.Some? ==> slot == StrategySlot(strategy.value)
    ensures strategy.None? ==> slot == GeneralSlot
  {
    if strategy == Some(Input) then InputSlot
    else if strategy == Some(Output) then OutputSlot
    else GeneralSlot
  }

  /**
    `customJsonSchema(schema, custom, strategy)`: a new schema of the same class
    whose definition is the old one with exactly the chosen slot set to `custom`.
   */
  function CustomJsonSchema<V>(schema: ZodSchema<V>, custom: V, strategy: Option<Strategy>): (r: ZodSchema<V>)
    ensures r.typeName == schema.typeName
    ensures r.def.Keys == schema.def.Keys + {Symbol(SlotFor(strategy))}
    ensures r.def[Symbol(SlotFor(strategy))] == custom
    ensures forall k :: k in schema.def && k != Symbol(SlotFor(strategy)) ==> r.def[k] == schema.def[k]
  {
    var slot := SlotFor(strategy);
    ZodSchema(schema.typeName, schema.def[Symbol(slot) := custom])
  }

  /** The strategy's own slot, when present, wins over the general slot. */
  lemma OwnSlotWins<V>(def: map<DefKey, V>, strategy: Strategy)
    requires Symbol(StrategySlot(strategy)) in def
    ensures GetCustomJsonSchema(def, strategy) == Some(def[Symbol(StrategySlot(strategy))])
  {
  }

  /** Without the strategy's own slot, lookup falls back to the general slot. */
  lemma FallsBackToGeneral<V>(def: map<DefKey, V>, strategy: Strategy)
    requires Symbol(StrategySlot(strategy)) !in def && Symbol(GeneralSlot) in def
    ensures GetCustomJsonSchema(def, strategy) == Some(def[Symbol(GeneralSlot)])
  {
  }

  /** Lookup yields nothing exactly when neither applicable slot is present. */
  lemma AbsentWithoutApplicableSlot<V>(def: map<DefKey, V>, strategy: Strategy)
    ensures GetCustomJsonSchema(def, strategy).None? <==>
      Symbol(StrategySlot(strategy)) !in def && Symbol(GeneralSlot) !in def
  {
  }

  /** With strategy `Both` the input and output slots are never consulted: only the general slot matters. */
  lemma BothConsultsOnlyGeneral<V>(def: map<DefKey, V>, other: map<DefKey, V>)
    requires Symbol(GeneralSlot) in def <==> Symbol(GeneralSlot) in other
    requires Symbol(GeneralSlot) in def ==> def[Symbol(GeneralSlot)] == other[Symbol(GeneralSlot)]
    ensures GetCustomJsonSchema(def, Both) == GetCustomJsonSchema(other, Both)
  {
  }

  /** Annotating under a strategy and looking up under the same strategy returns the annotation. */
  lemma AnnotateThenLookup<V>(schema: ZodSchema<V>, custom: V, strategy: Strategy)
    ensures GetCustomJsonSchema(CustomJsonSchema(schema, custom, Some(strategy)).def, strategy) == Some(custom)
    ensures GetCustomJsonSchema(CustomJsonSchema(schema, custom, None).def, Both) == Some(custom)
  {
  }

  /** Annotating a slot that a lookup does not consult leaves that lookup's answer unchanged. */
  lemma AnnotateLeavesOtherLookups<V>(schema: ZodSchema<V>, custom: V, written: Option<Strategy>, strategy: Strategy)
    requires Symbol(SlotFor(written)) !in Precedence(strategy)
    ensures GetCustomJsonSchema(CustomJsonSchema(schema, custom, written).def, strategy)
         == GetCustomJsonSchema(schema.def, strategy)
  {
  }

  /** Two definitions that agree on the consulted keys give the same first present value. */
  lemma FirstPresentAgrees<V>(d1: map<DefKey, V>, d2: map<DefKey, V>, keys: seq<DefKey>)
    requires forall k :: k in keys ==> (k in d1 <==> k in d2) && (k in d1 ==> d1[k] == d2[k])
    ensures FirstPresent(d1, keys) == FirstPresent(d2, keys)
  {
  }
}
