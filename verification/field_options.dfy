/**
 The option bag every field builder receives: the keys of the API-schema
 options that the builders read or default, plus the builder-specific keys
 of `IStringFieldOptions` and `INumberFieldOptions`.

 A key the caller did not write is `None`. JavaScript spreads
 (`{k: d, ...options}` and `{...options, k: v}`) are modelled by
 `OrDefault` and by a plain record update.
 */
module FieldOptions {

  datatype Option<+T> = None | Some(value: T)

  /** How a schema type is named: as a string (`'number'`) or by a constructor
      function (`Number`, `String`, `Boolean`, `Date`, or a DTO class). */
  datatype TypeRef =
    | TypeName(name: string)
    | Constructor(name: string)

  const NumberName: TypeRef := TypeName("number")
  const NumberCtor: TypeRef := Constructor("Number")
  const StringCtor: TypeRef := Constructor("String")
  const BooleanCtor: TypeRef := Constructor("Boolean")
  const DateCtor: TypeRef := Constructor("Date")

  datatype FieldOptions = FieldOptions(
    // keys of the API-schema options that the builders touch
    schemaType: Option<TypeRef>,  // `type`
    required: Option<bool>,
    format: Option<string>,
    isArray: Option<bool>,
    example: Option<real>,
    // keys of INumberFieldOptions
    each: Option<bool>,
    integer: Option<bool>,        // `int`
    minimum: Option<real>,
    maximum: Option<real>,
    isPositive: Option<bool>,
    // keys of IStringFieldOptions
    minLength: Option<int>,
    maxLength: Option<int>,
    toLowerCase: Option<bool>,
    toUpperCase: Option<bool>,
    swagger: Option<bool>
  )

  /** The empty option bag `{}`, every builder's default argument. */
  const NoOptions: FieldOptions :=
    FieldOptions(None, None, None, None, None, None, None, None, None, None,
                 None, None, None, None, None)

  /** A key defaulted to `d` before the caller's options are copied: the
      caller's value wins over the default. */
  function OrDefault<T>(given: Option<T>, d: T): (r: Option<T>)
    ensures r.Some?
    ensures given.Some? ==> r == given
    ensures given.None? ==> r == Some(d)
  {
    if given.Some? then given else Some(d)
  }

  /** JavaScript truthiness of an optional boolean key. */
  predicate IsTrue(flag: Option<bool>) {
    flag == Some(true)
  }

  /** JavaScript truthiness of an optional number key: present and non-zero. */
  predicate IsNonZero(n: Option<int>) {
    n.Some? && n.value != 0
  }

  /** `options?.swagger !== false`: metadata is emitted unless switched off explicitly. */
  predicate SwaggerOn(o: FieldOptions) {
    o.swagger != Some(false)
  }
}
