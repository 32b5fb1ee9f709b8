# Field decorators and page metadata of a NestJS boilerplate

This project models two pieces of a NestJS API boilerplate in Dafny.

The first is the field-descriptor composer in `src/decorators/fields.decorator.ts`.
Each builder there (`NumberField`, `StringField`, `PasswordField`,
`BooleanField`, `TranslationsField`, `EnumField`, `EmailField`, `PhoneField`,
`UUIDField`, `URLField`, `DateField`) takes an option bag and stacks a list of
decorators on a DTO property. Those decorators fall into three groups:

- type coercions and transforms from class-transformer;
- validators from class-validator;
- API-schema metadata from the swagger publisher.

Every builder has a `*Optional` variant that puts `IsOptional` in front.

The second is the `PageMetaDto` constructor in
`src/common/dto/page-meta.dto.ts`. It copies `page`, `take` and `itemCount`
and derives `pageCount`, `hasPreviousPage` and `hasNextPage` from them.

Modules:

- `FieldOptions` (`field_options.dfy`): the option bag. Every key is an
  `Option`, and `None` means the caller did not write the key. It also holds
  `OrDefault`, which models the `{key: d, ...options}` spread, and the
  JavaScript truthiness tests the builders use.
- `Decorators` (`decorators.dfy`): one constructor per decorator factory. It
  also has `Select`, with `Behaviour` (coercions, transforms and validators)
  and `Metadata` (schema entries) as the two views of a stack.
- `FieldBuilders` (`field_builders.dfy`): the eleven base builders. Each one
  returns the decorators it pushes, in the order it pushes them, with nested
  `applyDecorators` flattened.
- `FieldKinds` (`field_kinds.dfy`): all base builders behind one `Kind` tag.
  `Plain` and `MetaOf` give, per kind, the non-metadata and the metadata
  parts of each builder's body, written from the same helpers the builders
  use. The split lemmas show that `Behaviour` and `Metadata` separate every
  builder's stack into exactly those two parts.
- `OptionalFields` (`optional_fields.dfy`): the eleven `*Optional` variants
  and the `required` policy each applies.
- `Validation` (`validation.dfy`): what a stack accepts, with class-validator
  meaning for the checks the builders bound (`Min`, `Max`, `IsInt`,
  `MinLength`, `ArrayMinSize`, `IsEnum`, `IsOptional`, the `each` option and
  so on). Format checks (email, URL, UUID, phone, password pattern, date,
  nested DTO) are a parameter of type `FormatCheck`.
- `PageMeta` (`page_meta.dfy`): the page-metadata constructor, with
  `Math.ceil` as an integer ceiling. A page size of 0 gives an infinite or
  NaN count.

Points about the code that a reader might not expect:

- Not every `*Optional` variant publishes `required: false`:
  - `DateFieldOptional` forces it;
  - String, Password, Boolean, Enum, Phone and UUID only default it (a caller's
    `required` wins);
  - Number, Email, URL and Translations do not touch it.
- `EnumField` calls `getEnum()` eagerly (fields.decorator.ts:207), so the
  model takes the enum's values directly.
- `StringField` tests `minLength` and `maxLength` for truthiness, so a bound of
  0 adds no check. `NumberField` uses `typeof … === 'number'`, so a bound of 0
  is applied.
- `UUIDFieldOptional` accepts an `each` option, but `UUIDField` reads only
  `isArray`.
- `EmailField` publishes two metadata entries: the inner `StringField`'s and
  its own.
- `DateField` and `UUIDField` publish metadata even with `swagger: false`.

## Model

| member | source | states |
|---|---|---|
| FieldBuilders.NumberField | src/decorators/fields.decorator.ts:58-93 | The stack always starts with the `Number` coercion, whatever the options. |
| FieldBuilders.NumberChecksPresent | src/decorators/fields.decorator.ts:70-90 | The stack holds `ToArray` exactly when `each` is set, and `IsInt` exactly when `int` is set (otherwise `IsNumber`), each carrying `each`. `Min` and `Max` are present whenever a bound is given, 0 included. `IsPositive` is present exactly when `isPositive` is true. |
| FieldBuilders.NumberBoundsOnlyWhenGiven | src/decorators/fields.decorator.ts:80-86 | A `Min` or `Max` check appears only for a bound the caller gave, and with that bound, including 0. |
| FieldBuilders.NumberEachFlag | src/decorators/fields.decorator.ts:70-90 | Every per-element number check carries the caller's `each` flag unchanged. |
| FieldBuilders.NumberMetadata | src/decorators/fields.decorator.ts:66-68 | The published schema has type `'number'` unless the caller gave one, and example 1 for integers or 1.2 otherwise. Every other key is the caller's. |
| FieldBuilders.StringField | src/decorators/fields.decorator.ts:106-132 | The stack always starts with `IsNotEmpty`, `IsString`, `Trim`, whatever the options. |
| FieldBuilders.StringChecksPresent | src/decorators/fields.decorator.ts:115-129 | The stack has `MinLength` and `MaxLength` for truthy bounds, and `ToLowerCase` and `ToUpperCase` exactly when those flags are set. |
| FieldBuilders.StringLengthOnlyWhenTruthy | src/decorators/fields.decorator.ts:115-121 | A length check appears only when its bound is non-zero, and carries that bound. |
| FieldBuilders.StringMetadata | src/decorators/fields.decorator.ts:111-113 | The only metadata entry is present only when `swagger` is not false. It publishes the options with type defaulted to `String`. |
| FieldBuilders.PasswordField | src/decorators/fields.decorator.ts:140-147 | The stack starts with the string checks `IsNotEmpty`, `IsString`, `Trim` and ends with `IsPassword`. |
| FieldBuilders.PasswordExtendsString | src/decorators/fields.decorator.ts:143-146 | Everything before the final `IsPassword` is StringField's stack for the options with the password pattern as the default `format` (a caller's own `format` wins). |
| FieldBuilders.PasswordMetadata | src/decorators/fields.decorator.ts:144-144 | The one metadata entry appears only when swagger is on. It publishes the options with `type` defaulted to `String` and `format` defaulted to the password pattern, and a caller's own `format` or `type` wins. Nothing else differs from the options. |
| FieldBuilders.BooleanField | src/decorators/fields.decorator.ts:155-165 | The stack starts with `IsBoolean`, `ToBoolean`. It has one more entry exactly when `swagger` is not false. |
| FieldBuilders.BooleanMetadata | src/decorators/fields.decorator.ts:160-162 | The only metadata publishes the options with type defaulted to `Boolean`. |
| FieldBuilders.TranslationsField | src/decorators/fields.decorator.ts:173-190 | The stack has `ArrayMinSize` and `ArrayMaxSize`, both set to the language count, then `ValidateNested(each)` and the caller's type coercion. It has a fifth entry exactly when `swagger` is not false. |
| FieldBuilders.TranslationsMetadata | src/decorators/fields.decorator.ts:185-187 | The metadata publishes the options with `isArray` defaulted to true and nothing else changed. |
| FieldBuilders.EnumField | src/decorators/fields.decorator.ts:198-219 | The stack starts with `IsEnum` carrying `each`. `ToArray` is present exactly when `each` is set. |
| FieldBuilders.EnumEntries | src/decorators/fields.decorator.ts:208-216 | Apart from `IsEnum` and `ToArray`, the stack holds only the enum metadata, and only when `swagger` is not false. |
| FieldBuilders.EmailField | src/decorators/fields.decorator.ts:229-239 | The stack starts with `IsEmail` and then the inner StringField's `IsNotEmpty`, `IsString`, `Trim`. |
| FieldKinds.EmailExtendsString | src/decorators/fields.decorator.ts:231-231 | Email's checks and transforms are `IsEmail` followed by exactly those of StringField for the options with `toLowerCase` defaulted to true, so length bounds and upper-casing are forwarded unchanged. |
| FieldBuilders.EmailCase | src/decorators/fields.decorator.ts:232-232 | Email is lower-cased unless the caller sets `toLowerCase: false`. It is upper-cased only when asked. |
| FieldBuilders.EmailMetadata | src/decorators/fields.decorator.ts:232-236 | Both metadata entries appear only when `swagger` is not false. Each publishes the options with type `String`, and they differ only in the defaulted `toLowerCase`. |
| FieldBuilders.PhoneField | src/decorators/fields.decorator.ts:247-257 | The stack starts with `IsPhoneNumber` and the phone serializer. It has one more entry exactly when `swagger` is not false. |
| FieldBuilders.PhoneMetadata | src/decorators/fields.decorator.ts:252-254 | The only metadata publishes the options with type defaulted to `String`. |
| FieldBuilders.UUIDField | src/decorators/fields.decorator.ts:265-275 | The stack starts with a version-4 `IsUUID` carrying `isArray` as its `each`, and always has the UUID metadata. It has `ArrayNotEmpty` and `ToArray` exactly when `isArray` is set. |
| FieldBuilders.URLField | src/decorators/fields.decorator.ts:284-288 | The stack is StringField's followed by `IsUrl`. |
| FieldBuilders.DateField | src/decorators/fields.decorator.ts:296-300 | The stack is three entries long and starts with the `Date` coercion and `IsDate`. |
| FieldBuilders.DateMetadata | src/decorators/fields.decorator.ts:298-298 | The metadata entry is always present and publishes the options unchanged, whatever `swagger` says. |
| OptionalFields.NumberFieldOptional | src/decorators/fields.decorator.ts:95-104 | The stack starts with `IsOptional` and adds nothing else to NumberField's checks. The metadata publishes the caller's `required` untouched. |
| OptionalFields.StringFieldOptional | src/decorators/fields.decorator.ts:134-138 | The stack starts with `IsOptional` and adds nothing else to StringField's checks. The metadata publishes `required` defaulted to false. |
| OptionalFields.PasswordFieldOptional | src/decorators/fields.decorator.ts:149-153 | The stack starts with `IsOptional` and adds nothing else to PasswordField's checks. The metadata publishes `required` defaulted to false. |
| OptionalFields.BooleanFieldOptional | src/decorators/fields.decorator.ts:167-171 | The stack starts with `IsOptional` and adds nothing else to BooleanField's checks. The metadata publishes `required` defaulted to false. |
| OptionalFields.TranslationsFieldOptional | src/decorators/fields.decorator.ts:192-196 | The stack starts with `IsOptional` and adds nothing else to TranslationsField's checks. The metadata publishes the caller's `required` untouched. |
| OptionalFields.EnumFieldOptional | src/decorators/fields.decorator.ts:221-227 | The stack starts with `IsOptional` and adds nothing else to EnumField's checks. The metadata publishes `required` defaulted to false. |
| OptionalFields.EmailFieldOptional | src/decorators/fields.decorator.ts:241-245 | The stack starts with `IsOptional` and adds nothing else to EmailField's checks. The metadata publishes the caller's `required` untouched. |
| OptionalFields.PhoneFieldOptional | src/decorators/fields.decorator.ts:259-263 | The stack starts with `IsOptional` and adds nothing else to PhoneField's checks. The metadata publishes `required` defaulted to false. |
| OptionalFields.UUIDFieldOptional | src/decorators/fields.decorator.ts:277-282 | The stack starts with `IsOptional` and adds nothing else to UUIDField's checks. The metadata publishes `required` defaulted to false. |
| OptionalFields.URLFieldOptional | src/decorators/fields.decorator.ts:290-294 | The stack starts with `IsOptional` and adds nothing else to URLField's checks. The metadata publishes the caller's `required` untouched. |
| OptionalFields.DateFieldOptional | src/decorators/fields.decorator.ts:302-306 | The stack starts with `IsOptional` and adds nothing else to DateField's checks. The metadata publishes `required: false`, whatever the caller gave. |
| OptionalFields.OptionalWrapsBase | src/decorators/fields.decorator.ts:95-306 | Every optional variant is exactly `IsOptional` followed by its base builder's stack, with `required` forced, defaulted or left alone as that variant's policy says. |
| OptionalFields.OptionalAddsOnlyIsOptional | src/decorators/fields.decorator.ts:95-306 | An optional variant's behaviour is `IsOptional` followed by the base builder's behaviour. Its metadata is the base builder's for the adjusted `required`. |
| OptionalFields.OptionalMetadataRequired | src/decorators/fields.decorator.ts:95-306 | An optional variant publishes as many metadata entries as its base. Each carries the policy's `required`, which is always false for DateFieldOptional. |
| FieldKinds.SwaggerOffRemovesOnlyMetadata | src/decorators/fields.decorator.ts:58-257 | For every builder that honours `swagger`, `swagger: false` leaves no metadata. The stack is then exactly the full stack with its metadata removed, so every other decorator stays, in order. |
| FieldKinds.SwaggerKeepsBehaviour | src/decorators/fields.decorator.ts:58-300 | The value of `swagger` never changes a builder's coercions, transforms or validators. |
| FieldKinds.MetadataEntries | src/decorators/fields.decorator.ts:58-300 | A builder publishes one metadata entry, except that EmailField publishes two and a switched-off builder none. UUIDField and DateField always publish. No base builder sets `required` itself. |
| FieldKinds.ToArrayExactlyWhenArrayFlag | src/decorators/fields.decorator.ts:58-300 | `ToArray` is pushed exactly when the array flag is set (`each` for Number and Enum, `isArray` for UUID), and every per-element check carries that flag. |
| Validation.AllHoldOnlyBehaviour | src/decorators/fields.decorator.ts:58-300 | Metadata never rejects a value, so a stack accepts exactly what its behaviour accepts. |
| Validation.BaseHasNoIsOptional | src/decorators/fields.decorator.ts:58-300 | No base builder pushes `IsOptional`. |
| Validation.OptionalAcceptsAbsent | src/decorators/fields.decorator.ts:95-306 | Every optional variant accepts an undefined or null value. |
| Validation.OptionalPresentAsBase | src/decorators/fields.decorator.ts:95-306 | An optional variant accepts a value exactly when the value is absent or the base builder accepts it. |
| Validation.TranslationsExactLength | src/decorators/fields.decorator.ts:176-181 | A translations field accepts exactly the arrays whose length equals the language count and whose every element passes nested validation. |
| Validation.NumberMinimumApplies | src/decorators/fields.decorator.ts:80-82 | An accepted number is at least the given `minimum`, 0 included. |
| Validation.NumberMaximumApplies | src/decorators/fields.decorator.ts:84-86 | An accepted number is at most the given `maximum`, 0 included. |
| Validation.NumberMinimumOnly | src/decorators/fields.decorator.ts:74-82 | With only a `minimum`, a number is accepted exactly when it is at least that bound. |
| Validation.NumberIntegerRange | src/decorators/fields.decorator.ts:74-86 | With `{minimum: 0, maximum: 5, int: true}`, a number is accepted exactly when it is a whole number from 0 to 5. |
| Validation.NumberEachRejectsBadElement | src/decorators/fields.decorator.ts:70-82 | With `each`, one array element below the minimum rejects the whole array. |
| Validation.StringLengthRange | src/decorators/fields.decorator.ts:109-121 | With non-zero bounds `a` and `b`, a string is accepted exactly when it is non-empty and its length is between `a` and `b`. |
| Validation.StringZeroLengthIsNoBound | src/decorators/fields.decorator.ts:115-121 | A length bound of 0 gives the same checks as no bound. |
| Validation.EnumMembership | src/decorators/fields.decorator.ts:207-216 | Without `each`, a value is accepted exactly when it belongs to the enum. With `each`, an array is accepted exactly when every element does. |
| Validation.UUIDArrayNonEmpty | src/decorators/fields.decorator.ts:266-272 | With `isArray`, a value is accepted exactly when it is a non-empty array whose every element passes the version-4 UUID check. |
| PageMeta.CeilDiv | src/common/dto/page-meta.dto.ts:32-32 | The result `q` is the integer ceiling of `n / d`. For `d > 0`, `(q-1)·d < n ≤ q·d`; for negative divisors the bounds are mirrored. |
| PageMeta.PageCount | src/common/dto/page-meta.dto.ts:32-32 | The count is finite exactly for a non-zero page size. A zero page size gives NaN for no items and an infinity of the item count's sign otherwise. |
| PageMeta.MakePageMeta | src/common/dto/page-meta.dto.ts:28-35 | `page`, `take` and `itemCount` are copied unchanged. For a positive page size, `pageCount` is the ceiling of `itemCount / take`. `hasPreviousPage` holds exactly when `page > 1`, and `hasNextPage` exactly when `page` is below `pageCount`. |
| PageMeta.CeilDivUnique | src/common/dto/page-meta.dto.ts:32-32 | The ceiling is the only integer within those bounds. |
| PageMeta.NoItemsNoNextPage | src/common/dto/page-meta.dto.ts:32-34 | With no items, any non-zero page size gives 0 pages, and no non-negative page has a next page. |
| PageMeta.ExactMultiple | src/common/dto/page-meta.dto.ts:32-32 | `k` full pages of items give exactly `k` pages. |
| PageMeta.OneItemOver | src/common/dto/page-meta.dto.ts:32-32 | One item more than `k` full pages gives `k + 1` pages. |
| PageMeta.HasNextIffMoreItems | src/common/dto/page-meta.dto.ts:32-34 | For a positive page size, a next page exists exactly when `page · take < itemCount`. |
| PageMeta.PageCountBounds | src/common/dto/page-meta.dto.ts:32-32 | A non-negative item count gives a non-negative page count, and at least one page once there is an item. |
| PageMeta.LastPage | src/common/dto/page-meta.dto.ts:32-34 | On the last page there is no next page, and there is a previous page exactly when the items do not fit on one page (`itemCount > take`). |
| PageMeta.ZeroTakeAlwaysHasNext | src/common/dto/page-meta.dto.ts:32-34 | A page size of 0 with a positive item count gives an infinite page count, and then every page reports a next page. |

## Left out

- The decorator libraries themselves (class-validator, class-transformer and
  the swagger publisher) are not part of this model. Decorators are data, and
  only the checks the builders configure get a meaning.
- Format validators (email, URL, UUID version 4, phone number, the password
  pattern, date, nested DTO) are a `FormatCheck` parameter rather than a
  model of each format.
- Transforms are not applied before validation. `Trim`, `ToLowerCase`,
  `ToUpperCase`, `ToArray`, `ToBoolean` and the `Type` coercions appear in the
  stacks but do not rewrite the value `Validation` checks. So
  `Validation.StringLengthRange` describes a string that is already trimmed.
- Decorator execution order inside TypeScript's `applyDecorators` is not
  modelled. The lists keep the order in which the builders push.
- Numbers are exact reals and exact integers. IEEE-754 rounding, NaN inputs,
  `-0` and integers beyond 2^53 are not modelled. `minLength`, `maxLength` and
  the page fields are integers.
- The `example` of NumberField's metadata is the real 1.0 or 1.2, so the
  model does not tell the JavaScript integer 1 from the float 1.
- A key set explicitly to `undefined` is treated as an absent key. A JavaScript
  spread copies such a key over a default, so where a builder defaults a key
  the model differs from the code for such a caller:
  - `EmailField({toLowerCase: undefined})` pushes no `ToLowerCase` in the
    code (line 232 copies `undefined` over `true`); the model pushes it.
  - `PasswordField({format: undefined})` publishes no pattern in the code
    (line 144); the model publishes the password pattern.
  - `StringFieldOptional({required: undefined})` and the other defaulting
    `*Optional` variants publish `required: undefined` in the code (line 137);
    the model publishes `false`.
  Where no default is involved, the builders' tests treat the two alike.
- Option keys the builders only forward to the schema publisher (description,
  enum names and the like) are not modelled; they travel inside the same
  `FieldOptions` record unchanged.
- `ApiEnumProperty` and `ApiUUIDProperty` are opaque metadata entries. Their
  own schema construction, in property.decorator.ts, is not part of this model.
- `supportedLanguageCount` comes from the application's constants file, which
  is not part of this model. It is the `languageCount` parameter.
- Validation error messages and the shape of error reports are left out.
  `Validation.Accepts` gives only the verdict.
- The other files of the repository (entities, services, controllers,
  configuration, other decorators) are not part of this model.
