/**
 * The project's own validation pipe: convert a plain request value into an
 * instance of its declared class, run the class's validators, and turn the
 * failures into a flat list of `{field, constraint, message}` details.
 * `plainToInstance` and `validate` belong to class-transformer and
 * class-validator and are parameters here.
 */
module ValidationPipe {
  import opened Wrappers
  import opened HttpErrors
  import ExceptionFilter

  /** A class-validator `ValidationError`: the property and its failed constraints, in the order `Object.entries` lists them. */
  datatype ValidationError = ValidationError(property: string, constraints: Option<seq<(string, string)>>)

  /** The `metatype` of an argument: one of the five built-in constructors, or a DTO class. */
  datatype Metatype = StringType | BooleanType | NumberType | ArrayType | ObjectType | DtoClass(name: string)

  /** `toValidate`: only a DTO class is validated. */
  function ToValidate(m: Metatype): (r: bool)
    ensures r <==> m !in {StringType, BooleanType, NumberType, ArrayType, ObjectType}
  {
    !(m == StringType || m == BooleanType || m == NumberType || m == ArrayType || m == ObjectType)
  }

  /** `error.constraints || {}`. */
  function ConstraintsOf(e: ValidationError): seq<(string, string)> {
    e.constraints.GetOr([])
  }

  /** The details one error contributes: one per constraint, in constraint order. */
  function Entries(property: string, constraints: seq<(string, string)>): (r: seq<FieldError>)
    ensures |r| == |constraints|
    ensures forall i :: 0 <= i < |r| ==> r[i] == FieldError(property, constraints[i].0, constraints[i].1)
  {
    if constraints == [] then []
    else [FieldError(property, constraints[0].0, constraints[0].1)] + Entries(property, constraints[1..])
  }

  /** `formatErrors`: the `flatMap` of the errors' entries, in error order. */
  function FormatErrors(errors: seq<ValidationError>): seq<FieldError> {
    if errors == [] then []
    else Entries(errors[0].property, ConstraintsOf(errors[0])) + FormatErrors(errors[1..])
  }

  /** The total number of failed constraints. */
  function ConstraintCount(errors: seq<ValidationError>): nat {
    if errors == [] then 0 else |ConstraintsOf(errors[0])| + ConstraintCount(errors[1..])
  }

  /** One detail per constraint: an error without constraints contributes nothing. */
  lemma {:induction false} FormatErrorsLength(errors: seq<ValidationError>)
    ensures |FormatErrors(errors)| == ConstraintCount(errors)
  {
    if errors != [] {
      FormatErrorsLength(errors[1..]);
    }
  }

  /** Formatting keeps error order: it distributes over concatenation. */
  lemma {:induction false} FormatErrorsAppend(a: seq<ValidationError>, b: seq<ValidationError>)
    ensures FormatErrors(a + b) == FormatErrors(a) + FormatErrors(b)
  {
    if a == [] {
      assert a + b == b;
    } else {
      assert (a + b)[1..] == a[1..] + b;
      FormatErrorsAppend(a[1..], b);
    }
  }

  /** A detail is in the output exactly when some error carries that constraint and message for that field. */
  lemma {:induction false} FormatErrorsMembers(errors: seq<ValidationError>, d: FieldError)
    ensures d in FormatErrors(errors) <==>
      exists i, j :: 0 <= i < |errors| && 0 <= j < |ConstraintsOf(errors[i])|
        && d == FieldError(errors[i].property, ConstraintsOf(errors[i])[j].0, ConstraintsOf(errors[i])[j].1)
  {
    if errors != [] {
      FormatErrorsMembers(errors[1..], d);
      var head := Entries(errors[0].property, ConstraintsOf(errors[0]));
      if d in FormatErrors(errors) {
        if d in head {
          var j :| 0 <= j < |head| && head[j] == d;
          assert 0 <= 0 < |errors| && 0 <= j < |ConstraintsOf(errors[0])|;
        } else {
          assert d in FormatErrors(errors[1..]);
          var i, j :| 0 <= i < |errors[1..]| && 0 <= j < |ConstraintsOf(errors[1..][i])|
            && d == FieldError(errors[1..][i].property, ConstraintsOf(errors[1..][i])[j].0, ConstraintsOf(errors[1..][i])[j].1);
          assert errors[1..][i] == errors[i + 1];
        }
      } else {
        forall i, j | 0 <= i < |errors| && 0 <= j < |ConstraintsOf(errors[i])|
          ensures d != FieldError(errors[i].property, ConstraintsOf(errors[i])[j].0, ConstraintsOf(errors[i])[j].1)
        {
          if i == 0 {
            assert head[j] in head;
          } else {
            assert errors[1..][i - 1] == errors[i];
          }
        }
      }
    }
  }

  /** The exception thrown for a failed validation. */
  function ValidationFailure(details: seq<FieldError>): Thrown {
    Http(BadRequestException, 400, Object(Some("VALIDATION_ERROR"), Some(Text("Validation failed")), Some(details)))
  }

  /**
   * `transform`: a falsy value and a value without a DTO metatype pass through
   * unchanged; otherwise the converted instance is returned when it has no
   * validation errors, and a BadRequest carrying the formatted errors is thrown when
   * it has some.
   */
  function Transform<V>(value: V, metatype: Option<Metatype>, falsy: V -> bool,
                        plainToInstance: (Metatype, V) -> V, validate: V -> seq<ValidationError>): (r: Result<V, Thrown>)
    ensures falsy(value) || metatype.None? || !ToValidate(metatype.value) ==> r == Success(value)
    ensures !falsy(value) && metatype.Some? && ToValidate(metatype.value) ==>
      var obj := plainToInstance(metatype.value, value);
      r == if validate(obj) == [] then Success(obj) else Failure(ValidationFailure(FormatErrors(validate(obj))))
  {
    if falsy(value) then Success(value)
    else if metatype.None? || !ToValidate(metatype.value) then Success(value)
    else
      var obj := plainToInstance(metatype.value, value);
      var errors := validate(obj);
      if |errors| > 0 then Failure(ValidationFailure(FormatErrors(errors))) else Success(obj)
  }

  /**
   * The exception this pipe throws for a failed validation reaches the client,
   * through the exception filter, as status 400 with code 'VALIDATION_ERROR',
   * message 'Validation failed' and one detail per failed constraint.
   */
  lemma ValidationFailureReply(errors: seq<ValidationError>)
    ensures ExceptionFilter.ErrorOf(ValidationFailure(FormatErrors(errors)))
      == ExceptionFilter.ErrorInfo(400, "VALIDATION_ERROR", Text("Validation failed"), Some(FormatErrors(errors)))
    ensures |ExceptionFilter.ErrorOf(ValidationFailure(FormatErrors(errors))).details.value| == ConstraintCount(errors)
  {
    FormatErrorsLength(errors);
  }
}
