/** The records the registration functions build and the registry they
    append them to. The record types copy their arguments; the registry
    only appends. */
module Metadata {
  import opened JsValues

  /** The kinds of rule a validation record can describe. */
  datatype ValidationType =
    | CustomValidation
    | NestedValidation
    | Whitelist
    | ConditionalValidation
    | IsDefined
    | Equals
    | NotEquals
    | IsEmpty
    | IsNotEmpty
    | IsIn
    | IsNotIn
    | IsBoolean
    | IsDate
    | IsNumber
    | IsInt
    | IsString
    | IsDateString
    | IsArray
    | IsEnum

  /** The per-rule options a caller may pass along; they are carried into
      the record untouched. */
  datatype ValidationOptions = ValidationOptions(
    each: Option<bool>,
    message: Option<string>,
    groups: Option<seq<string>>,
    always: Option<bool>,
    context: Option<Value>)

  /** One element of a record's `constraints` list: a plain value, or a
      condition `(object, value) => boolean`. */
  datatype Constraint =
    | Val(value: Value)
    | Cond(test: (Instance, Value) -> bool)

  /** The arguments of one validation rule, as the record stores them. */
  datatype ValidationMetadata = ValidationMetadata(
    kind: ValidationType,
    target: ClassRef,
    propertyName: string,
    constraints: Option<seq<Constraint>>,
    constraintCls: Option<ClassRef>,
    validationOptions: Option<ValidationOptions>)

  /** One registered custom-constraint implementation. */
  datatype ConstraintMetadata = ConstraintMetadata(target: ClassRef, name: string, isAsync: bool)

  /** `constraints` is a one-element list whose element satisfies `p`. */
  predicate SingleConstraint(m: ValidationMetadata, p: Constraint -> bool) {
    m.constraints.Some? && |m.constraints.value| == 1 && p(m.constraints.value[0])
  }

  /** The shape every registration function gives a record of its kind:
      only custom rules name a constraint class; conditions carry one
      predicate; `IsIn`/`IsNotIn` carry the allowed values as one array;
      `IsNumber` carries one options object; comparisons and enums carry
      one value; every other kind carries no constraints. */
  predicate WellShaped(m: ValidationMetadata) {
    match m.kind
    case CustomValidation => m.constraintCls.Some?
    case ConditionalValidation =>
      m.constraintCls.None? && SingleConstraint(m, (c: Constraint) => c.Cond?)
    case IsIn | IsNotIn =>
      m.constraintCls.None? && SingleConstraint(m, (c: Constraint) => c.Val? && c.value.Array?)
    case IsNumber =>
      m.constraintCls.None? && SingleConstraint(m, (c: Constraint) => c.Val? && c.value.Object?)
    case Equals | NotEquals | IsEnum =>
      m.constraintCls.None? && SingleConstraint(m, (c: Constraint) => c.Val?)
    case _ => m.constraintCls.None? && m.constraints.None?
  }

  /** The shared registry. It only ever appends. */
  class MetadataStorage {
    var validationMetadatas: seq<ValidationMetadata>
    var constraintMetadatas: seq<ConstraintMetadata>

    /** Every stored validation record has the shape of its kind. */
    ghost predicate Valid()
      reads this
    {
      forall i :: 0 <= i < |validationMetadatas| ==> WellShaped(validationMetadatas[i])
    }

    constructor ()
      ensures Valid()
      ensures validationMetadatas == [] && constraintMetadatas == []
    {
      validationMetadatas := [];
      constraintMetadatas := [];
    }

    method AddValidationMetadata(m: ValidationMetadata)
      modifies this
      ensures validationMetadatas == old(validationMetadatas) + [m]
      ensures constraintMetadatas == old(constraintMetadatas)
      ensures Valid() <==> old(Valid()) && WellShaped(m)
    {
      ghost var before := validationMetadatas;
      validationMetadatas := validationMetadatas + [m];
      assert validationMetadatas[|before|] == m;
      assert forall i :: 0 <= i < |before| ==> validationMetadatas[i] == before[i];
    }

    method AddConstraintMetadata(m: ConstraintMetadata)
      modifies this
      ensures constraintMetadatas == old(constraintMetadatas) + [m]
      ensures validationMetadatas == old(validationMetadatas)
      ensures Valid() == old(Valid())
    {
      constraintMetadatas := constraintMetadatas + [m];
    }
  }
}
