# Resource schema resolver of Fast-Controller, in Dafny

Fast-Controller exposes ORM model types as CRUD REST resources. Each resource
type (`class Resource(DAOModel)` in `fast_controller/resource.py`) holds six
schema slots: default, search, input, update, output and detailed output.
A `set_*_schema` classmethod stores whatever it is given. A `get_*_schema`
classmethod passes the stored candidate through `either`. That function
keeps the candidate if it is a class that subclasses `SQLModel`. Otherwise
it falls back to another getter:

- search, input, update and output fall back to `get_default_schema()`;
- detailed output falls back to `get_output_schema()`, which itself falls back to default;
- `get_default_schema()` returns its slot as stored, with no check.

The project has two modules.

- `ResourceSchemas` (`resource.dfy`) follows the source file. `Candidate` abstracts
  what a setter may be given. `Either` is `either`. The class `Resource` holds
  the six slots as mutable fields. Its setters are methods that change one
  field. Its getters, `GetPath`, `Validate` and `GetBase` are functions that
  read the object.
- `SchemaFallback` (`fallback.dfy`) states the same fallback rule a second way,
  as a small graph: `Fallback`, `Depth`, `Chain` and `Resolve`. A list scan,
  `FirstValid`, gives a third reading. The lemmas prove that the class getters
  are resolution on this graph. They also prove what the graph guarantees:
  at most two fallback steps, no cycle, and a getter reads only the slots on
  its chain. They state what a getter returns after one setter call. After
  any series of setter calls, each slot holds what the last call on it stored.
  A series of setters none of which touches a getter's chain leaves that
  getter unchanged.

Modelling choices:

- A slot that no setter has written reads as the candidate `Unset`. It is
  not a class, so `either` falls back past it. `set_*_schema` may be given
  any object, and the setter methods have no precondition. No Python caller
  can pass `Unset` itself: every real argument is a `Class` or a
  `NotAClass`. The setter contracts still hold for `Unset`, which would put
  the slot back in its never-written state.
- A class candidate carries an `id` that stands for the class object's
  identity, not its `__name__`. `GetBase` returns the class whose `id` is the
  resource's own.
- `get_default_schema` has no fallback, so it requires `HasDefault()`: the
  default slot must have been written. Every other getter requires the same.
  Its call to `either` evaluates `cls.get_default_schema()` (or
  `cls.get_output_schema()`) as an argument before looking at its own slot.
- `normalized_name()` comes from DAOModel, which is not part of this model.
  Its result for the type is a constructor parameter, `normalizedName`. The
  optional `path` class variable is the constructor parameter `path`.

Three facts about the code deserve attention:

- `get_update_schema` does not consult the input slot. Its fallback is the
  default getter (`fast_controller/resource.py:64`). See `UpdateIgnoresInput`
  and `Resource.SetInputSchema`.
- `get_default_schema` has no fallback to `get_base`
  (`fast_controller/resource.py:40`). It returns its slot verbatim, so an
  invalid default reaches every getter whose own slot is invalid. `Resolve`
  guarantees a valid result only when the default is valid.
- The longest chain takes two fallback steps, from detailed output through
  output to default (`Depth`, `Chain`).

## Model

| member | source | states |
|---|---|---|
| `ResourceSchemas.Either` | fast_controller/resource.py:8-9 | the result is one of the two arguments; it is `preferred` exactly when `preferred` is a class subclassing `SQLModel` (or equals the default); it is valid exactly when one of the two is |
| `ResourceSchemas.Resource.constructor` | fast_controller/resource.py:12-20 | a newly defined resource type keeps its class identity, normalized name and path override, and all six slots are unset |
| `ResourceSchemas.Resource.GetPath` | fast_controller/resource.py:22-24 | the `path` override verbatim when present, else `/api/` followed by the normalized name |
| `ResourceSchemas.Resource.Validate` | fast_controller/resource.py:26-28 | every column and value is accepted |
| `ResourceSchemas.Resource.GetBase` | fast_controller/resource.py:30-32 | the resource class itself, which is a valid schema class |
| `ResourceSchemas.Resource.SetDefaultSchema` | fast_controller/resource.py:34-36 | only the default slot changes, to the given candidate, unfiltered; afterwards the default getter returns it |
| `ResourceSchemas.Resource.GetDefaultSchema` | fast_controller/resource.py:38-40 | the stored default slot, with no validity filter and no fallback |
| `ResourceSchemas.Resource.SetSearchSchema` | fast_controller/resource.py:42-44 | only the search slot changes; afterwards the search getter returns the candidate if valid, else the default; the other five getters are unchanged |
| `ResourceSchemas.Resource.GetSearchSchema` | fast_controller/resource.py:46-48 | the search slot when it is a valid schema class, otherwise the default getter |
| `ResourceSchemas.Resource.SetInputSchema` | fast_controller/resource.py:50-52 | only the input slot changes; afterwards the input getter returns the candidate if valid, else the default; the other five getters, the update getter among them, are unchanged |
| `ResourceSchemas.Resource.GetInputSchema` | fast_controller/resource.py:54-56 | the input slot when it is a valid schema class, otherwise the default getter |
| `ResourceSchemas.Resource.SetUpdateSchema` | fast_controller/resource.py:58-60 | only the update slot changes; afterwards the update getter returns the candidate if valid, else the default; the other five getters are unchanged |
| `ResourceSchemas.Resource.GetUpdateSchema` | fast_controller/resource.py:62-64 | the update slot when it is a valid schema class, otherwise the default getter (not the input getter) |
| `ResourceSchemas.Resource.SetOutputSchema` | fast_controller/resource.py:66-68 | only the output slot changes; afterwards the output getter returns the candidate if valid, else the default; default, search, input and update getters are unchanged; the detailed-output getter is unchanged when its own slot is valid and otherwise follows the new output getter |
| `ResourceSchemas.Resource.GetOutputSchema` | fast_controller/resource.py:70-72 | the output slot when it is a valid schema class, otherwise the default getter |
| `ResourceSchemas.Resource.SetDetailedOutputSchema` | fast_controller/resource.py:74-76 | only the detailed-output slot changes; afterwards the detailed-output getter returns the candidate if valid, else the output getter; the other five getters are unchanged |
| `ResourceSchemas.Resource.GetDetailedOutputSchema` | fast_controller/resource.py:78-80 | the detailed-output slot if valid, else the output slot if valid, else the default getter |
| `SchemaFallback.Fallback` | fast_controller/resource.py:46-80 | default has no fallback; detailed output falls back to output; search, input, update and output fall back to default; each step lowers the depth by one |
| `SchemaFallback.Depth` | fast_controller/resource.py:70-80 | at most two fallback steps; zero exactly for default, two exactly for detailed output |
| `SchemaFallback.Chain` | fast_controller/resource.py:46-80 | the slots a getter consults start at its own slot, end at default, hold at most three slots, follow `Fallback` step by step and strictly lower the depth |
| `SchemaFallback.ChainHasNoRepeats` | fast_controller/resource.py:46-80 | resolution never cycles: no slot appears twice on a chain |
| `SchemaFallback.ChainsOfTheSource` | fast_controller/resource.py:46-80 | the six chains written out; update's chain is `[Update, Default]`, detailed output's is `[DetailedOutput, Output, Default]` |
| `SchemaFallback.Resolve` | fast_controller/resource.py:38-80 | resolution along the graph keeps a valid own slot; its result is a valid schema class or the stored default, and it is valid whenever the default is |
| `SchemaFallback.FirstValidPicksFirstValid` | fast_controller/resource.py:38-80 | the list scan returns the candidate at a position before which nothing is valid, and which is itself valid unless it is the last |
| `SchemaFallback.ResolveIsFirstValidOnChain` | fast_controller/resource.py:46-80 | resolving a slot on the graph equals the first valid candidate on its chain, the default as stored if none |
| `SchemaFallback.ResolveReadsOnlyItsChain` | fast_controller/resource.py:46-80 | two slot snapshots that agree on a slot's chain resolve it identically |
| `SchemaFallback.SetThenResolve` | fast_controller/resource.py:34-80 | after storing a valid class (or anything in default) the getter returns it; after storing an invalid one elsewhere it returns the fallback's resolution |
| `SchemaFallback.SetOffChainKeepsResolution` | fast_controller/resource.py:34-80 | a setter on a slot off a getter's chain does not change that getter |
| `SchemaFallback.UpdateIgnoresInput` | fast_controller/resource.py:58-64 | whatever the input slot holds, the update getter resolves as before, to the default when its own slot is invalid |
| `SchemaFallback.ReplayOffChainKeepsResolution` | fast_controller/resource.py:34-76 | any series of setter calls, none on a getter's chain, leaves that getter's result unchanged |
| `SchemaFallback.ReplayAppend` | fast_controller/resource.py:34-76 | one more setter call after a series is one more store on the replayed slots |
| `SchemaFallback.ReplayLastWriteWins` | fast_controller/resource.py:34-76 | after any series of setter calls, each slot holds what the last call on it stored, unfiltered, or its earlier content if no call wrote it |
| `SchemaFallback.ReplayDefaultGetter` | fast_controller/resource.py:34-40 | after any series of setter calls, the default getter returns what the last `set_default_schema` stored, valid or not |
| `SchemaFallback.ReplayGetter` | fast_controller/resource.py:42-80 | after any series of setter calls, a getter returns the last schema stored in its own slot when that is a valid schema class, else its fallback's resolution on the replayed slots |
| `SchemaFallback.GettersFollowFallbackGraph` | fast_controller/resource.py:38-80 | each of the six class getters equals resolution on the graph of the object's current slots |

## Left out

- `isclass` and `issubclass(…, SQLModel)` are not computed. A candidate records whether it is a class and whether it subclasses `SQLModel` (`Candidate.Class`).
- DAOModel's `normalized_name()` is not part of this model. Its result for a type is given to the constructor.
- Python class attributes are inherited. A subclass that never set a slot would read its parent's value through the method resolution order. Each `Resource` object models one type's own slots, and an unwritten slot reads as `Unset`.
- Getters have no side effects because they are functions with a `reads` frame. Repeated reads with no setter in between are therefore equal by construction, and no separate lemma states this.
- Overriding classmethods is not modelled. A subclass that overrides `get_default_schema` or `get_output_schema` would change every getter that reaches them through `cls` (`fast_controller/resource.py:48-80`). The model fixes the fallback graph.
- `getattr(cls, "path", default)` builds the default string even when `path` exists. That evaluation has no observable effect, and the model builds the string only when it is used.
- `paginated` and `docstring_format` are not in this model. They live outside `fast_controller/resource.py` and build SQLModel classes and docstrings through reflection.
- ORM persistence, the web framework and concurrent access to the class-level slots are not modelled.
