# class-validator: rule registration

This project models the registration front end of class-validator in
Dafny. These are the functions of `src/contraints/index.ts` that turn a
validation rule declared on a class property into a metadata record and
append it to the shared metadata storage. The model has four modules:

- `JsValues` (`values.dfy`): the JavaScript values the functions receive.
  It covers `undefined`, `null`, arrays and plain objects, plus optional
  arguments (`Option`), classes (`ClassRef`, a constructor with its
  `name`) and annotated objects (`Instance`: what `object.constructor`
  yields, and the value `object[name]` yields for each property name,
  own or inherited).
- `Metadata` (`metadata.dfy`) holds three things:
  - the rule kinds;
  - the two record types, a validation record (kind, target,
    propertyName, optional constraints, optional constraintCls, optional
    validationOptions) and a constraint record (target, name, isAsync);
  - the storage, a class `MetadataStorage` with two append-only `seq`
    fields. Its invariant `Valid()` says every validation record has the
    shape of its kind (`WellShaped`).
- `NameGeneration` (`name_generation.dfy`) is an exact model of the
  CamelCase to snake_case rewrite in `addValidatorConstraint`: the
  regular expression `/\.?([A-Z]+)/g`, then `/^_/`.
- `Constraints` (`constraints.dfy`) has one method per `add*` function.
  Each method appends exactly one record, and its postcondition gives the
  whole new state of the storage: the other sequence is unchanged, and
  `Valid()` holds afterwards exactly when it held before.

How the model represents the source:

- The storage is reached in the source through `getFromContainer`. Here
  it is an explicit `storage` parameter.
- The argument of `addValidate` that is either a constraint array or the
  validation options is a tagged union, `ConstraintsOrOptions`. When the
  argument is omitted it is `OptionsArg(None)`. The source holds the same
  as `undefined instanceof Array` is false: `constraints` stays
  undefined, the options are undefined, and `maybeValidationOptions` is
  ignored.
- A condition is a Dafny function `(Instance, Value) -> bool`. The one
  `addValidateIsOptional` registers is `PresenceTest(propertyName)`.

Constraint names deserve a note. The comment at
`src/contraints/index.ts:19` reads "generate name if it was not given",
but the conversion at lines 20-22 runs only when `name` is already empty
(line 18). It is applied to the empty string and yields the empty string.
So a constraint registered without a name gets its class name verbatim.
The model follows the code. `RegisteredNameNotGenerated` shows that a
class name with a capital is never registered as its snake case, and
`RegisteredNameIsNotSnakeCased` shows it on a class named `MyRule`: the
registered name is `MyRule`, while its snake case is `my_rule`. The full
rewrite is modelled in `NameGeneration` so that this difference can be
stated.

## Model

| member | source | states |
|---|---|---|
| `Metadata.MetadataStorage.AddValidationMetadata` | src/contraints/index.ts:55-57 | appends exactly the given validation record; constraint records unchanged; the storage stays well-shaped iff it was and the record is well-shaped |
| `Metadata.MetadataStorage.AddConstraintMetadata` | src/contraints/index.ts:24-25 | appends exactly the given constraint record; validation records unchanged |
| `NameGeneration.UpperPrefix` | src/contraints/index.ts:21 | the length consumed by a greedy `[A-Z]+`: every character before it is a capital and the next one, if any, is not |
| `NameGeneration.LowerRun` | src/contraints/index.ts:21 | `toLowerCase` of a run of capitals: same length, each character is the lower-case letter 32 code points above |
| `NameGeneration.ReplaceCaps` | src/contraints/index.ts:21 | the global replace `/\.?([A-Z]+)/g`: a greedy run of capitals, with a `.` just before it, becomes `_` and the run in lower case; every other character is copied |
| `NameGeneration.StripLeadingUnderscore` | src/contraints/index.ts:22 | `/^_/`: one leading underscore is removed |
| `NameGeneration.SnakeCase` | src/contraints/index.ts:20-22 | the two replaces in sequence |
| `NameGeneration.SnakeCaseDropsIntroducedUnderscore` | src/contraints/index.ts:20-22 | a name starting with a capital, or with a `.` and a capital, gets a leading `_` from the first replace, and the second replace drops exactly that `_` |
| `NameGeneration.SnakeCaseKeepsOrdinaryStart` | src/contraints/index.ts:20-22 | a name starting with any other character except `_` keeps that character; the second replace changes nothing |
| `NameGeneration.ReplaceCapsNoUpper` | src/contraints/index.ts:20-21 | after the global replace no capital letter is left |
| `NameGeneration.SnakeCaseNoUpper` | src/contraints/index.ts:20-22 | a generated name never contains a capital letter |
| `NameGeneration.ReplaceCapsIdentity` | src/contraints/index.ts:21 | on a string without capitals the global replace changes nothing |
| `NameGeneration.SnakeCaseOfSnakeName` | src/contraints/index.ts:20-22 | a name without capitals and without a leading underscore is left as it is |
| `NameGeneration.SnakeCaseOfEmpty` | src/contraints/index.ts:18-22 | on the empty name, the only one that reaches it, the rewrite yields the empty name |
| `NameGeneration.ReplaceCapsCopies` | src/contraints/index.ts:21 | a character that starts no match is copied and the scan goes on after it |
| `NameGeneration.ReplaceCapsSingleCapital` | src/contraints/index.ts:21 | a lone capital becomes `_` and its lower case |
| `NameGeneration.ReplaceCapsOfWord` | src/contraints/index.ts:21 | `Rule` becomes `_rule` |
| `NameGeneration.SnakeCaseOfCamelCase` | src/contraints/index.ts:20-22 | `MyRule` becomes `my_rule`: each capital starts a word, the leading underscore is dropped |
| `NameGeneration.SnakeCaseOfAcronym` | src/contraints/index.ts:20-22 | `IDs` becomes `ids`: a run of capitals is one match |
| `NameGeneration.SnakeCaseOfDotted` | src/contraints/index.ts:20-22 | `a.B.c` becomes `a_b.c`: a dot is consumed only before a capital |
| `Constraints.AsyncRequested` | src/contraints/index.ts:14 | `options && options.async`: options are given and `async` is true |
| `Constraints.NameGiven` | src/contraints/index.ts:15 | `options && options.name`: options are given with a non-empty name |
| `Constraints.RegisteredName` | src/contraints/index.ts:15-23 | the name given in the options, else the class name verbatim |
| `Constraints.RegisteredNameEmpty` | src/contraints/index.ts:15-18 | the registered name is empty iff no non-empty name was given and the class name is empty |
| `Constraints.RegisteredNameNotGenerated` | src/contraints/index.ts:15-23 | with no name given, a class name containing a capital is registered verbatim, which always differs from its snake case |
| `Constraints.RegisteredNameIsNotSnakeCased` | src/contraints/index.ts:16-23 | an unnamed constraint class `MyRule` is registered as `MyRule`, which differs from its snake case `my_rule` |
| `Constraints.AddValidatorConstraint` | src/contraints/index.ts:10-26 | appends one constraint record `(target, name, isAsync)`; name is the non-empty `options.name`, else `target.name` verbatim; isAsync iff options are given with `async` true; validation records unchanged |
| `Constraints.CustomValidationArgs` | src/contraints/index.ts:42-54 | kind CUSTOM_VALIDATION, target is the object's constructor, constraintCls is the constraint class; an array argument becomes `constraints`, with options from `maybeValidationOptions`; otherwise `constraints` is undefined and the argument is the options, whatever `maybeValidationOptions` is; the record is well-shaped |
| `Constraints.CustomValidationArgsRoundTrip` | src/contraints/index.ts:47-53 | the array-or-options argument can be read back from the record; neither form is lost |
| `Constraints.AddValidate` | src/contraints/index.ts:28-58 | appends exactly the custom-validation record; constraint records unchanged; well-shapedness preserved |
| `Constraints.AddValidateNested` | src/contraints/index.ts:60-74 | appends one NESTED_VALIDATION record without constraints or class, carrying the options |
| `Constraints.AddValidateAllow` | src/contraints/index.ts:76-90 | appends one WHITELIST record without constraints or class, carrying the options |
| `Constraints.AddValidateIf` | src/contraints/index.ts:92-108 | appends one CONDITIONAL_VALIDATION record whose constraints are the single given condition |
| `Constraints.AddValidateDefined` | src/contraints/index.ts:110-124 | appends one IS_DEFINED record without constraints or class |
| `Constraints.AddValidateEquals` | src/contraints/index.ts:126-142 | appends one EQUALS record whose constraints are the single comparison value |
| `Constraints.AddValidateNotEquals` | src/contraints/index.ts:144-160 | appends one NOT_EQUALS record whose constraints are the single comparison value |
| `Constraints.AddValidateIsEmpty` | src/contraints/index.ts:162-176 | appends one IS_EMPTY record without constraints or class |
| `Constraints.AddValidateIsNotEmpty` | src/contraints/index.ts:178-192 | appends one IS_NOT_EMPTY record without constraints or class |
| `Constraints.AddValidateIsIn` | src/contraints/index.ts:194-210 | appends one IS_IN record whose constraints hold one element, the whole values array, not spread |
| `Constraints.AddValidateIsNotIn` | src/contraints/index.ts:212-228 | appends one IS_NOT_IN record whose constraints hold one element, the whole values array, not spread |
| `JsValues.Get` | src/contraints/index.ts:242-243 | `object[propertyName]`: the property's value, `undefined` when it has none |
| `JsValues.IsPresent` | src/contraints/index.ts:242-243 | `!== null && !== undefined` |
| `Constraints.PresenceTest` | src/contraints/index.ts:239-246 | the condition `addValidateIsOptional` registers: `object[propertyName]` is neither null nor undefined |
| `Constraints.PresenceTestIgnoresValue` | src/contraints/index.ts:240-245 | the condition gives the same answer for every `value` argument |
| `Constraints.PresenceTestCases` | src/contraints/index.ts:241-244 | a missing property fails the condition; a present one passes iff it is neither null nor undefined |
| `Constraints.AddValidateIsOptional` | src/contraints/index.ts:230-252 | appends one CONDITIONAL_VALIDATION record whose single constraint is the presence condition for the property |
| `Constraints.AddValidateIsBoolean` | src/contraints/index.ts:254-268 | appends one IS_BOOLEAN record without constraints or class |
| `Constraints.AddValidateIsDate` | src/contraints/index.ts:270-284 | appends one IS_DATE record without constraints or class |
| `Constraints.AddValidateIsNumber` | src/contraints/index.ts:286-302 | appends one IS_NUMBER record whose constraints are the single options object, `{}` when omitted |
| `Constraints.AddValidateIsInt` | src/contraints/index.ts:304-318 | appends one IS_INT record without constraints or class |
| `Constraints.AddValidateIsString` | src/contraints/index.ts:320-334 | appends one IS_STRING record without constraints or class |
| `Constraints.AddValidateIsDateString` | src/contraints/index.ts:336-350 | appends one IS_DATE_STRING record without constraints or class |
| `Constraints.AddValidateIsArray` | src/contraints/index.ts:352-366 | appends one IS_ARRAY record without constraints or class |
| `Constraints.AddValidateIsEnum` | src/contraints/index.ts:368-384 | appends one IS_ENUM record whose constraints are the single enum entity |

Every `add*` method also states that constraint records (or validation
records, for `AddValidatorConstraint`) are unchanged. It also states that
`MetadataStorage.Valid()` holds afterwards iff it held before. This is
the invariant every adder preserves: each builds a record of the shape
of its kind.

## Left out

- The validation engine that reads the storage (groups, conditions at
  run time, whitelisting, nested descent, async aggregation, messages):
  its code is not part of this model.
- `getFromContainer` and the dependency-injection container: the storage
  is passed in as a parameter instead of being looked up.
- The implementations of `MetadataStorage`, `ValidationMetadata` and
  `ConstraintMetadata` are not part of this model. The constructors are
  taken to copy their arguments, and the storage is taken to append. Any
  grouping, inheritance lookup or deduplication they do is not modelled.
- The string values of `ValidationTypes` are not part of this model. The
  kinds are an enumeration.
- The built-in validation predicates (`isIn`, `isString`, ...) are not
  part of this model.
- Conditions passed to `addValidateIf` are opaque Dafny functions. The
  contents of `IsNumberOptions` (an object), the enum entity and
  comparison values are stored values that are never looked into.
- Runtime values that break the TypeScript signatures are not modelled,
  for example a non-string `options.name`, a non-boolean `async`, or a
  `null` options object. Under the declared types, truthiness reduces to
  "present and non-empty" for `name` and "present and true" for `async`.
- JavaScript numbers are floating point; here they are integers, since
  the registration layer only stores them.
- Object identity and aliasing of the argument objects: a record holds
  the arguments' values, not references to them.
- Property reads are taken to be pure: an `Instance` gives one value per
  property name. A getter whose result changes from one read to the next
  is not modelled.
