/** The registration functions of `src/contraints/index.ts`. Each one
    shapes its arguments into one record and appends it to the shared
    registry; the registry, reached in the source through a container
    lookup, is passed here as the `storage` parameter. */
module Constraints {
  import opened JsValues
  import opened Metadata
  import NameGeneration

  // ---------------------------------------------------------------------
  // addValidatorConstraint

  /** The optional `{ name?: string; async?: boolean }` argument. */
  datatype ConstraintOptions = ConstraintOptions(name: Option<string>, async: Option<bool>)

  /** `options && options.async`: options were given and `async` is true. */
  predicate AsyncRequested(options: Option<ConstraintOptions>) {
    options.Some? && options.value.async == Some(true)
  }

  /** `options && options.name`: options were given with a non-empty name. */
  predicate NameGiven(options: Option<ConstraintOptions>) {
    options.Some? && options.value.name.Some? && options.value.name.value != ""
  }

  /** The name a constraint is registered under: the name given in the
      options, else the class's own name, verbatim. */
  function RegisteredName(target: ClassRef, options: Option<ConstraintOptions>): string {
    if NameGiven(options) then options.value.name.value else target.name
  }

  /** The name is empty only when no name was given and the class is anonymous. */
  lemma RegisteredNameEmpty(target: ClassRef, options: Option<ConstraintOptions>)
    ensures RegisteredName(target, options) == "" <==> !NameGiven(options) && target.name == ""
  {
  }

  /** Without a given name, a class name that has a capital is registered
      as it is, which is never what the snake-case rewrite would give. */
  lemma RegisteredNameNotGenerated(target: ClassRef, options: Option<ConstraintOptions>)
    requires !NameGiven(options) && !NameGeneration.NoUpper(target.name)
    ensures RegisteredName(target, options) == target.name
    ensures RegisteredName(target, options) != NameGeneration.SnakeCase(target.name)
  {
    NameGeneration.SnakeCaseNoUpper(target.name);
  }

  /** The name of an unnamed constraint is the class name, not its snake
      case: the rewrite is reached only for the empty class name. */
  lemma RegisteredNameIsNotSnakeCased()
    ensures RegisteredName(ClassRef(0, "MyRule"), None) == "MyRule"
    ensures NameGeneration.SnakeCase("MyRule") == "my_rule"
  {
    NameGeneration.SnakeCaseOfCamelCase();
  }

  method AddValidatorConstraint(storage: MetadataStorage, target: ClassRef, options: Option<ConstraintOptions>)
    modifies storage
    ensures storage.constraintMetadatas
         == old(storage.constraintMetadatas)
          + [ConstraintMetadata(target, RegisteredName(target, options), AsyncRequested(options))]
    ensures storage.validationMetadatas == old(storage.validationMetadatas)
    ensures storage.Valid() == old(storage.Valid())
  {
    var isAsync := if options.Some? && options.value.async.Some? && options.value.async.value then true else false;
    var name := if options.Some? && options.value.name.Some? && options.value.name.value != ""
                then options.value.name.value else "";
    if name == "" {
      name := target.name;
      if name == "" {
        // the generated name, which here can only be that of ""
        name := NameGeneration.SnakeCase(name);
        NameGeneration.SnakeCaseOfEmpty();
      }
    }
    storage.AddConstraintMetadata(ConstraintMetadata(target, name, isAsync));
  }

  // ---------------------------------------------------------------------
  // addValidate

  /** The `constraintsOrValidationOptions` argument, resolved once: an array
      of constraints, or else the validation options (absent when the
      argument was omitted). */
  datatype ConstraintsOrOptions =
    | ConstraintArray(constraints: seq<Constraint>)
    | OptionsArg(options: Option<ValidationOptions>)

  /** The `options` argument of `addValidate`. */
  datatype ValidateOptions = ValidateOptions(
    constraintClass: ClassRef,
    constraintsOrValidationOptions: ConstraintsOrOptions,
    maybeValidationOptions: Option<ValidationOptions>)

  /** The record `addValidate` registers. An array goes to `constraints`
      and the options come from `maybeValidationOptions`; anything else is
      the options themselves, `constraints` stays undefined and
      `maybeValidationOptions` is not used. */
  function CustomValidationArgs(obj: Instance, propertyName: string, options: ValidateOptions): (m: ValidationMetadata)
    ensures m.kind == CustomValidation && m.target == obj.ctor && m.propertyName == propertyName
    ensures m.constraintCls == Some(options.constraintClass)
    ensures m.constraints.Some? <==> options.constraintsOrValidationOptions.ConstraintArray?
    ensures options.constraintsOrValidationOptions.ConstraintArray? ==>
              m.constraints == Some(options.constraintsOrValidationOptions.constraints)
              && m.validationOptions == options.maybeValidationOptions
    ensures options.constraintsOrValidationOptions.OptionsArg? ==>
              m.validationOptions == options.constraintsOrValidationOptions.options
    ensures WellShaped(m)
  {
    var arg := options.constraintsOrValidationOptions;
    ValidationMetadata(
      CustomValidation,
      obj.ctor,
      propertyName,
      if arg.ConstraintArray? then Some(arg.constraints) else None,
      Some(options.constraintClass),
      if !arg.ConstraintArray? then arg.options else options.maybeValidationOptions)
  }

  /** Which form the second argument took, read back from a record. */
  function PassedArgument(m: ValidationMetadata): ConstraintsOrOptions {
    if m.constraints.Some? then ConstraintArray(m.constraints.value) else OptionsArg(m.validationOptions)
  }

  /** A custom record loses nothing of `constraintsOrValidationOptions`:
      it can be read back from the record, whatever
      `maybeValidationOptions` was. */
  lemma CustomValidationArgsRoundTrip(obj: Instance, propertyName: string, options: ValidateOptions)
    ensures PassedArgument(CustomValidationArgs(obj, propertyName, options))
         == options.constraintsOrValidationOptions
  {
  }

  method AddValidate(storage: MetadataStorage, obj: Instance, propertyName: string, options: ValidateOptions)
    modifies storage
    ensures storage.validationMetadatas
         == old(storage.validationMetadatas) + [CustomValidationArgs(obj, propertyName, options)]
    ensures storage.constraintMetadatas == old(storage.constraintMetadatas)
    ensures storage.Valid() == old(storage.Valid())
  {
    var args := CustomValidationArgs(obj, propertyName, options);
    storage.AddValidationMetadata(args);
  }

  // ---------------------------------------------------------------------
  // Rules without parameters

  method AddValidateNested(storage: MetadataStorage, obj: Instance, propertyName: string,
                           validationOptions: Option<ValidationOptions>)
    modifies storage
    ensures storage.validationMetadatas == old(storage.validationMetadatas)
          + [ValidationMetadata(NestedValidation, obj.ctor, propertyName, None, None, validationOptions)]
    ensures storage.constraintMetadatas == old(storage.constraintMetadatas)
    ensures storage.Valid() == old(storage.Valid())
  {
    var args := ValidationMetadata(NestedValidation, obj.ctor, propertyName, None, None, validationOptions);
    storage.AddValidationMetadata(args);
  }

  method AddValidateAllow(storage: MetadataStorage, obj: Instance, propertyName: string,
                          validationOptions: Option<ValidationOptions>)
    modifies storage
    ensures storage.validationMetadatas == old(storage.validationMetadatas)
          + [ValidationMetadata(Whitelist, obj.ctor, propertyName, None, None, validationOptions)]
    ensures storage.constraintMetadatas == old(storage.constraintMetadatas)
    ensures storage.Valid() == old(storage.Valid())
  {
    var args := ValidationMetadata(Whitelist, obj.ctor, propertyName, None, None, validationOptions);
    storage.AddValidationMetadata(args);
  }

  method AddValidateDefined(storage: MetadataStorage, obj: Instance, propertyName: string,
                            validationOptions: Option<ValidationOptions>)
    modifies storage
    ensures storage.validationMetadatas == old(storage.validationMetadatas)
          + [ValidationMetadata(IsDefined, obj.ctor, propertyName, None, None, validationOptions)]
    ensures storage.constraintMetadatas == old(storage.constraintMetadatas)
    ensures storage.Valid() == old(storage.Valid())
  {
    var args := ValidationMetadata(IsDefined, obj.ctor, propertyName, None, None, validationOptions);
    storage.AddValidationMetadata(args);
  }

  method AddValidateIsEmpty(storage: MetadataStorage, obj: Instance, propertyName: string,
                            validationOptions: Option<ValidationOptions>)
    modifies storage
    ensures storage.validationMetadatas == old(storage.validationMetadatas)
          + [ValidationMetadata(IsEmpty, obj.ctor, propertyName, None, None, validationOptions)]
    ensures storage.constraintMetadatas == old(storage.constraintMetadatas)
    ensures storage.Valid() == old(storage.Valid())
  {
    var args := ValidationMetadata(IsEmpty, obj.ctor, propertyName, None, None, validationOptions);
    storage.AddValidationMetadata(args);
  }

  method AddValidateIsNotEmpty(storage: MetadataStorage, obj: Instance, propertyName: string,
                               validationOptions: Option<ValidationOptions>)
    modifies storage
    ensures storage.validationMetadatas == old(storage.validationMetadatas)
          + [ValidationMetadata(IsNotEmpty, obj.ctor, propertyName, None, None, validationOptions)]
    ensures storage.constraintMetadatas == old(storage.constraintMetadatas)
    ensures storage.Valid() == old(storage.Valid())
  {
    var args := ValidationMetadata(IsNotEmpty, obj.ctor, propertyName, None, None, validationOptions);
    storage.AddValidationMetadata(args);
  }

  method AddValidateIsBoolean(storage: MetadataStorage, obj: Instance, propertyName: string,
                              validationOptions: Option<ValidationOptions>)
    modifies storage
    ensures storage.validationMetadatas == old(storage.validationMetadatas)
          + [ValidationMetadata(IsBoolean, obj.ctor, propertyName, None, None, validationOptions)]
    ensures storage.constraintMetadatas == old(storage.constraintMetadatas)
    ensures storage.Valid() == old(storage.Valid())
  {
    var args := ValidationMetadata(IsBoolean, obj.ctor, propertyName, None, None, validationOptions);
    storage.AddValidationMetadata(args);
  }

  method AddValidateIsDate(storage: MetadataStorage, obj: Instance, propertyName: string,
                           validationOptions: Option<ValidationOptions>)
    modifies storage
    ensures storage.validationMetadatas == old(storage.validationMetadatas)
          + [ValidationMetadata(IsDate, obj.ctor, propertyName, None, None, validationOptions)]
    ensures storage.constraintMetadatas == old(storage.constraintMetadatas)
    ensures storage.Valid() == old(storage.Valid())
  {
    var args := ValidationMetadata(IsDate, obj.ctor, propertyName, None, None, validationOptions);
    storage.AddValidationMetadata(args);
  }

  method AddValidateIsInt(storage: MetadataStorage, obj: Instance, propertyName: string,
                          validationOptions: Option<ValidationOptions>)
    modifies storage
    ensures storage.validationMetadatas == old(storage.validationMetadatas)
          + [ValidationMetadata(IsInt, obj.ctor, propertyName, None, None, validationOptions)]
    ensures storage.constraintMetadatas == old(storage.constraintMetadatas)
    ensures storage.Valid() == old(storage.Valid())
  {
    var args := ValidationMetadata(IsInt, obj.ctor, propertyName, None, None, validationOptions);
    storage.AddValidationMetadata(args);
  }

  method AddValidateIsString(storage: MetadataStorage, obj: Instance, propertyName: string,
                             validationOptions: Option<ValidationOptions>)
    modifies storage
    ensures storage.validationMetadatas == old(storage.validationMetadatas)
          + [ValidationMetadata(IsString, obj.ctor, propertyName, None, None, validationOptions)]
    ensures storage.constraintMetadatas == old(storage.constraintMetadatas)
    ensures storage.Valid() == old(storage.Valid())
  {
    var args := ValidationMetadata(IsString, obj.ctor, propertyName, None, None, validationOptions);
    storage.AddValidationMetadata(args);
  }

  method AddValidateIsDateString(storage: MetadataStorage, obj: Instance, propertyName: string,
                                 validationOptions: Option<ValidationOptions>)
    modifies storage
    ensures storage.validationMetadatas == old(storage.validationMetadatas)
          + [ValidationMetadata(IsDateString, obj.ctor, propertyName, None, None, validationOptions)]
    ensures storage.constraintMetadatas == old(storage.constraintMetadatas)
    ensures storage.Valid() == old(storage.Valid())
  {
    var args := ValidationMetadata(IsDateString, obj.ctor, propertyName, None, None, validationOptions);
    storage.AddValidationMetadata(args);
  }

  method AddValidateIsArray(storage: MetadataStorage, obj: Instance, propertyName: string,
                            validationOptions: Option<ValidationOptions>)
    modifies storage
    ensures storage.validationMetadatas == old(storage.validationMetadatas)
          + [ValidationMetadata(IsArray, obj.ctor, propertyName, None, None, validationOptions)]
    ensures storage.constraintMetadatas == old(storage.constraintMetadatas)
    ensures storage.Valid() == old(storage.Valid())
  {
    var args := ValidationMetadata(IsArray, obj.ctor, propertyName, None, None, validationOptions);
    storage.AddValidationMetadata(args);
  }

  // ---------------------------------------------------------------------
  // Rules with one parameter, stored as a one-element constraints list

  method AddValidateIf(storage: MetadataStorage, obj: Instance, propertyName: string,
                       condition: (Instance, Value) -> bool, validationOptions: Option<ValidationOptions>)
    modifies storage
    ensures storage.validationMetadatas == old(storage.validationMetadatas)
          + [ValidationMetadata(ConditionalValidation, obj.ctor, propertyName,
                                Some([Cond(condition)]), None, validationOptions)]
    ensures storage.constraintMetadatas == old(storage.constraintMetadatas)
    ensures storage.Valid() == old(storage.Valid())
  {
    var args := ValidationMetadata(ConditionalValidation, obj.ctor, propertyName,
                                   Some([Cond(condition)]), None, validationOptions);
    storage.AddValidationMetadata(args);
  }

  method AddValidateEquals(storage: MetadataStorage, obj: Instance, propertyName: string,
                           comparison: Value, validationOptions: Option<ValidationOptions>)
    modifies storage
    ensures storage.validationMetadatas == old(storage.validationMetadatas)
          + [ValidationMetadata(Equals, obj.ctor, propertyName, Some([Val(comparison)]), None, validationOptions)]
    ensures storage.constraintMetadatas == old(storage.constraintMetadatas)
    ensures storage.Valid() == old(storage.Valid())
  {
    var args := ValidationMetadata(Equals, obj.ctor, propertyName, Some([Val(comparison)]), None, validationOptions);
    storage.AddValidationMetadata(args);
  }

  method AddValidateNotEquals(storage: MetadataStorage, obj: Instance, propertyName: string,
                              comparison: Value, validationOptions: Option<ValidationOptions>)
    modifies storage
    ensures storage.validationMetadatas == old(storage.validationMetadatas)
          + [ValidationMetadata(NotEquals, obj.ctor, propertyName, Some([Val(comparison)]), None, validationOptions)]
    ensures storage.constraintMetadatas == old(storage.constraintMetadatas)
    ensures storage.Valid() == old(storage.Valid())
  {
    var args := ValidationMetadata(NotEquals, obj.ctor, propertyName, Some([Val(comparison)]), None, validationOptions);
    storage.AddValidationMetadata(args);
  }

  /** The allowed values are stored as ONE constraint, the whole array. */
  method AddValidateIsIn(storage: MetadataStorage, obj: Instance, propertyName: string,
                         values: seq<Value>, validationOptions: Option<ValidationOptions>)
    modifies storage
    ensures storage.validationMetadatas == old(storage.validationMetadatas)
          + [ValidationMetadata(IsIn, obj.ctor, propertyName, Some([Val(Array(values))]), None, validationOptions)]
    ensures storage.constraintMetadatas == old(storage.constraintMetadatas)
    ensures storage.Valid() == old(storage.Valid())
  {
    var args := ValidationMetadata(IsIn, obj.ctor, propertyName, Some([Val(Array(values))]), None, validationOptions);
    storage.AddValidationMetadata(args);
  }

  /** The forbidden values are stored as ONE constraint, the whole array. */
  method AddValidateIsNotIn(storage: MetadataStorage, obj: Instance, propertyName: string,
                            values: seq<Value>, validationOptions: Option<ValidationOptions>)
    modifies storage
    ensures storage.validationMetadatas == old(storage.validationMetadatas)
          + [ValidationMetadata(IsNotIn, obj.ctor, propertyName, Some([Val(Array(values))]), None, validationOptions)]
    ensures storage.constraintMetadatas == old(storage.constraintMetadatas)
    ensures storage.Valid() == old(storage.Valid())
  {
    var args := ValidationMetadata(IsNotIn, obj.ctor, propertyName, Some([Val(Array(values))]), None, validationOptions);
    storage.AddValidationMetadata(args);
  }

  /** The `IsNumberOptions` object, `{}` when the argument is omitted. */
  method AddValidateIsNumber(storage: MetadataStorage, obj: Instance, propertyName: string,
                             options: Option<map<string, Value>>, validationOptions: Option<ValidationOptions>)
    modifies storage
    ensures storage.validationMetadatas == old(storage.validationMetadatas)
          + [ValidationMetadata(IsNumber, obj.ctor, propertyName,
                                Some([Val(Object(if options.Some? then options.value else map[]))]),
                                None, validationOptions)]
    ensures storage.constraintMetadatas == old(storage.constraintMetadatas)
    ensures storage.Valid() == old(storage.Valid())
  {
    var numberOptions := if options.Some? then options.value else map[];
    var args := ValidationMetadata(IsNumber, obj.ctor, propertyName, Some([Val(Object(numberOptions))]), None, validationOptions);
    storage.AddValidationMetadata(args);
  }

  method AddValidateIsEnum(storage: MetadataStorage, obj: Instance, propertyName: string,
                           entity: Value, validationOptions: Option<ValidationOptions>)
    modifies storage
    ensures storage.validationMetadatas == old(storage.validationMetadatas)
          + [ValidationMetadata(IsEnum, obj.ctor, propertyName, Some([Val(entity)]), None, validationOptions)]
    ensures storage.constraintMetadatas == old(storage.constraintMetadatas)
    ensures storage.Valid() == old(storage.Valid())
  {
    var args := ValidationMetadata(IsEnum, obj.ctor, propertyName, Some([Val(entity)]), None, validationOptions);
    storage.AddValidationMetadata(args);
  }

  // ---------------------------------------------------------------------
  // addValidateIsOptional

  /** The condition `addValidateIsOptional` registers: the validated
      object's property is neither `null` nor `undefined`. The value passed
      alongside is not looked at. */
  function PresenceTest(propertyName: string): (Instance, Value) -> bool {
    (o: Instance, v: Value) => IsPresent(Get(o, propertyName))
  }

  /** The condition gives the same answer for any value argument. */
  lemma PresenceTestIgnoresValue(propertyName: string, o: Instance, v: Value, w: Value)
    ensures PresenceTest(propertyName)(o, v) == PresenceTest(propertyName)(o, w)
  {
  }

  /** A missing property, `null` and `undefined` all fail the condition;
      any other stored value passes it. */
  lemma PresenceTestCases(propertyName: string, o: Instance, v: Value)
    ensures propertyName !in o.props ==> !PresenceTest(propertyName)(o, v)
    ensures propertyName in o.props ==>
              (PresenceTest(propertyName)(o, v) <==> o.props[propertyName] != Null && o.props[propertyName] != Undefined)
  {
  }

  method AddValidateIsOptional(storage: MetadataStorage, obj: Instance, propertyName: string,
                               validationOptions: Option<ValidationOptions>)
    modifies storage
    ensures storage.validationMetadatas == old(storage.validationMetadatas)
          + [ValidationMetadata(ConditionalValidation, obj.ctor, propertyName,
                                Some([Cond(PresenceTest(propertyName))]), None, validationOptions)]
    ensures storage.constraintMetadatas == old(storage.constraintMetadatas)
    ensures storage.Valid() == old(storage.Valid())
  {
    var args := ValidationMetadata(ConditionalValidation, obj.ctor, propertyName,
                                   Some([Cond(PresenceTest(propertyName))]), None, validationOptions);
    storage.AddValidationMetadata(args);
  }
}
