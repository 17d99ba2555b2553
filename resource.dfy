/**
 * A model of `fast_controller/resource.py`: the schema slots of a REST
 * resource type, the setters that store a candidate in each slot, and the
 * getters that filter a stored candidate through `either` and fall back
 * along a fixed chain.
 */
module ResourceSchemas {

  datatype Option<T> = None | Some(value: T)

  /**
   * Whatever a caller may hand to a `set_*_schema` classmethod, abstracted
   * to what the validity filter can observe: whether it is a class at all,
   * and if so whether it subclasses `SQLModel`. A class is identified by
   * `id`, which stands for the class object's identity (two distinct
   * classes have distinct ids even if their `__name__` agrees).
   */
  datatype Candidate =
    | Unset                                     // what a slot no setter has written reads as
    | Class(id: nat, subclassesSqlModel: bool)  // a Python class
    | NotAClass(repr: string)                   // any other object: None, an instance, a string, ...

  /** `inspect.isclass` */
  predicate IsClass(c: Candidate) {
    c.Class?
  }

  /** `issubclass(c, SQLModel)`, which Python only lets one ask of a class */
  predicate SubclassesSqlModel(c: Candidate)
    requires IsClass(c)
  {
    c.subclassesSqlModel
  }

  /** The validity test of `either`: a class that subclasses `SQLModel`. */
  predicate IsSqlModelClass(c: Candidate) {
    IsClass(c) && SubclassesSqlModel(c)
  }

  /**
   * `either(preferred, default)`: keep the preferred candidate if it is a
   * valid schema class, otherwise take the default.
   */
  function Either(preferred: Candidate, default: Candidate): (r: Candidate)
    ensures r == preferred || r == default
    ensures r == preferred <==> IsSqlModelClass(preferred) || preferred == default
    ensures IsSqlModelClass(preferred) ==> r == preferred
    ensures IsSqlModelClass(r) <==> IsSqlModelClass(preferred) || IsSqlModelClass(default)
  {
    if IsSqlModelClass(preferred) then preferred else default
  }

  /** The six schema slots of a resource type, by name. */
  datatype SlotName = Default | Search | Input | Update | Output | DetailedOutput

  /** A snapshot of the six slots of a resource type. */
  datatype Slots = Slots(
    default: Candidate,
    search: Candidate,
    input: Candidate,
    update: Candidate,
    output: Candidate,
    detailedOutput: Candidate)
  {
    /** The candidate stored in slot `n`. */
    function Get(n: SlotName): Candidate {
      match n
      case Default => default
      case Search => search
      case Input => input
      case Update => update
      case Output => output
      case DetailedOutput => detailedOutput
    }

    /** This snapshot with slot `n` replaced by `c`, everything else kept. */
    function Set(n: SlotName, c: Candidate): (t: Slots)
      ensures t.Get(n) == c
      ensures forall m :: m != n ==> t.Get(m) == Get(m)
    {
      match n
      case Default => this.(default := c)
      case Search => this.(search := c)
      case Input => this.(input := c)
      case Update => this.(update := c)
      case Output => this.(output := c)
      case DetailedOutput => this.(detailedOutput := c)
    }
  }

  /**
   * A resource type (`class Resource(DAOModel)`). Its schema slots are
   * class-level state that the setters overwrite; `path` is an optional
   * class variable and `normalizedName` is what DAOModel's
   * `normalized_name()` returns for this type. `id` is the identity of the
   * resource class itself, in the same numbering as `Candidate.Class`.
   */
  class Resource {
    const id: nat
    const normalizedName: string
    const path: Option<string>

    var defaultSchema: Candidate
    var searchSchema: Candidate
    var inputSchema: Candidate
    var updateSchema: Candidate
    var outputSchema: Candidate
    var detailedOutputSchema: Candidate

    /** A freshly defined resource type: no slot has been written yet. */
    constructor (id: nat, normalizedName: string, path: Option<string>)
      ensures this.id == id && this.normalizedName == normalizedName && this.path == path
      ensures State() == Slots(Unset, Unset, Unset, Unset, Unset, Unset)
    {
      this.id := id;
      this.normalizedName := normalizedName;
      this.path := path;
      defaultSchema, searchSchema, inputSchema := Unset, Unset, Unset;
      updateSchema, outputSchema, detailedOutputSchema := Unset, Unset, Unset;
    }

    /** The six slots as one value. */
    function State(): (s: Slots)
      reads this
      ensures s.Get(Default) == defaultSchema && s.Get(Search) == searchSchema
      ensures s.Get(Input) == inputSchema && s.Get(Update) == updateSchema
      ensures s.Get(Output) == outputSchema && s.Get(DetailedOutput) == detailedOutputSchema
    {
      Slots(defaultSchema, searchSchema, inputSchema, updateSchema, outputSchema, detailedOutputSchema)
    }

    /** The default slot has been written, so the default getter can be read. */
    predicate HasDefault()
      reads this
    {
      defaultSchema != Unset
    }

    /** `get_path`: the `path` class variable if the type defines one, else `/api/<normalized name>`. */
    function GetPath(): (p: string)
      reads this
      ensures path.Some? ==> p == path.value
      ensures path.None? ==> |p| == 5 + |normalizedName| && p[..5] == "/api/" && p[5..] == normalizedName
    {
      match path
      case Some(overridden) => overridden
      case None => "/api/" + normalizedName
    }

    /** `validate(column_name, value)` accepts every column and value. */
    function Validate<V>(columnName: string, value: V): (ok: bool)
      ensures ok
    {
      true
    }

    /** `get_base`: the resource class itself, which is an `SQLModel` subclass. */
    function GetBase(): (b: Candidate)
      reads this
      ensures IsSqlModelClass(b) && b.id == id
    {
      Class(id, true)
    }

    method SetDefaultSchema(schema: Candidate)
      modifies this
      ensures State() == old(State()).Set(Default, schema)
      ensures schema != Unset ==> HasDefault() && GetDefaultSchema() == schema
    {
      defaultSchema := schema;
    }

    /** `get_default_schema` returns its slot as stored: no validity filter, no fallback. */
    function GetDefaultSchema(): (r: Candidate)
      reads this
      requires HasDefault()
      ensures r == State().Get(Default)
    {
      defaultSchema
    }

    method SetSearchSchema(schema: Candidate)
      modifies this
      ensures State() == old(State()).Set(Search, schema)
      ensures HasDefault() ==> GetSearchSchema() == if IsSqlModelClass(schema) then schema else GetDefaultSchema()
      ensures HasDefault() ==> GetDefaultSchema() == old(GetDefaultSchema()) && GetInputSchema() == old(GetInputSchema())
      ensures HasDefault() ==> GetUpdateSchema() == old(GetUpdateSchema()) && GetOutputSchema() == old(GetOutputSchema())
      ensures HasDefault() ==> GetDetailedOutputSchema() == old(GetDetailedOutputSchema())
    {
      searchSchema := schema;
    }

    /** `get_search_schema`: the search slot if it is a valid schema class, else the default getter. */
    function GetSearchSchema(): (r: Candidate)
      reads this
      requires HasDefault()
      ensures IsSqlModelClass(searchSchema) ==> r == searchSchema
      ensures !IsSqlModelClass(searchSchema) ==> r == GetDefaultSchema()
    {
      Either(searchSchema, GetDefaultSchema())
    }

    method SetInputSchema(schema: Candidate)
      modifies this
      ensures State() == old(State()).Set(Input, schema)
      ensures HasDefault() ==> GetInputSchema() == if IsSqlModelClass(schema) then schema else GetDefaultSchema()
      ensures HasDefault() ==> GetDefaultSchema() == old(GetDefaultSchema()) && GetSearchSchema() == old(GetSearchSchema())
      ensures HasDefault() ==> GetUpdateSchema() == old(GetUpdateSchema()) && GetOutputSchema() == old(GetOutputSchema())
      ensures HasDefault() ==> GetDetailedOutputSchema() == old(GetDetailedOutputSchema())
    {
      inputSchema := schema;
    }

    /** `get_input_schema`: the input slot if it is a valid schema class, else the default getter. */
    function GetInputSchema(): (r: Candidate)
      reads this
      requires HasDefault()
      ensures IsSqlModelClass(inputSchema) ==> r == inputSchema
      ensures !IsSqlModelClass(inputSchema) ==> r == GetDefaultSchema()
    {
      Either(inputSchema, GetDefaultSchema())
    }

    method SetUpdateSchema(schema: Candidate)
      modifies this
      ensures State() == old(State()).Set(Update, schema)
      ensures HasDefault() ==> GetUpdateSchema() == if IsSqlModelClass(schema) then schema else GetDefaultSchema()
      ensures HasDefault() ==> GetDefaultSchema() == old(GetDefaultSchema()) && GetSearchSchema() == old(GetSearchSchema())
      ensures HasDefault() ==> GetInputSchema() == old(GetInputSchema()) && GetOutputSchema() == old(GetOutputSchema())
      ensures HasDefault() ==> GetDetailedOutputSchema() == old(GetDetailedOutputSchema())
    {
      updateSchema := schema;
    }

    /**
     * `get_update_schema`: the update slot if it is a valid schema class,
     * else the default getter. The input slot is not consulted.
     */
    function GetUpdateSchema(): (r: Candidate)
      reads this
      requires HasDefault()
      ensures IsSqlModelClass(updateSchema) ==> r == updateSchema
      ensures !IsSqlModelClass(updateSchema) ==> r == GetDefaultSchema()
    {
      Either(updateSchema, GetDefaultSchema())
    }

    method SetOutputSchema(schema: Candidate)
      modifies this
      ensures State() == old(State()).Set(Output, schema)
      ensures HasDefault() ==> GetOutputSchema() == if IsSqlModelClass(schema) then schema else GetDefaultSchema()
      ensures HasDefault() ==> GetDefaultSchema() == old(GetDefaultSchema()) && GetSearchSchema() == old(GetSearchSchema())
      ensures HasDefault() ==> GetInputSchema() == old(GetInputSchema()) && GetUpdateSchema() == old(GetUpdateSchema())
      ensures HasDefault() && IsSqlModelClass(detailedOutputSchema) ==> GetDetailedOutputSchema() == old(GetDetailedOutputSchema())
      ensures HasDefault() && !IsSqlModelClass(detailedOutputSchema) ==> GetDetailedOutputSchema() == GetOutputSchema()
    {
      outputSchema := schema;
    }

    /** `get_output_schema`: the output slot if it is a valid schema class, else the default getter. */
    function GetOutputSchema(): (r: Candidate)
      reads this
      requires HasDefault()
      ensures IsSqlModelClass(outputSchema) ==> r == outputSchema
      ensures !IsSqlModelClass(outputSchema) ==> r == GetDefaultSchema()
    {
      Either(outputSchema, GetDefaultSchema())
    }

    method SetDetailedOutputSchema(schema: Candidate)
      modifies this
      ensures State() == old(State()).Set(DetailedOutput, schema)
      ensures HasDefault() ==> GetDetailedOutputSchema() == if IsSqlModelClass(schema) then schema else GetOutputSchema()
      ensures HasDefault() ==> GetDefaultSchema() == old(GetDefaultSchema()) && GetSearchSchema() == old(GetSearchSchema())
      ensures HasDefault() ==> GetInputSchema() == old(GetInputSchema()) && GetUpdateSchema() == old(GetUpdateSchema())
      ensures HasDefault() ==> GetOutputSchema() == old(GetOutputSchema())
    {
      detailedOutputSchema := schema;
    }

    /**
     * `get_detailed_output_schema`: the detailed-output slot if it is a
     * valid schema class, else the output getter, which in turn falls back
     * to the default getter.
     */
    function GetDetailedOutputSchema(): (r: Candidate)
      reads this
      requires HasDefault()
      ensures IsSqlModelClass(detailedOutputSchema) ==> r == detailedOutputSchema
      ensures !IsSqlModelClass(detailedOutputSchema) && IsSqlModelClass(outputSchema) ==> r == outputSchema
      ensures !IsSqlModelClass(detailedOutputSchema) && !IsSqlModelClass(outputSchema) ==> r == GetDefaultSchema()
    {
      Either(detailedOutputSchema, GetOutputSchema())
    }
  }
}
