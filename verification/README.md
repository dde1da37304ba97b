# UUID field: fill-if-empty save policy

A model of the save-time behaviour of the Advanced Custom Fields "UUID"
field type. Just before a record is saved, the field's `update_value`
filter looks at the value currently stored. If that value counts as empty
it is replaced by a freshly generated identifier (`generate_value`, which
delegates to `gen_uuid_v4`); otherwise it is stored unchanged. "Empty" is
decided by `emptyString`: the value is not set, or PHP's `(string)` cast of
it is exactly `""`. Nothing is trimmed, so a string of spaces and the
string `"0"` are both non-empty.

The project has three modules:

- `PhpValues` (`php_values.dfy`): the stored PHP values (`null`, string,
  boolean, integer) and PHP's `(string)` cast on them, with decimal integer
  text proved to read back as the same integer.
- `UuidField` (`uuid_field.dfy`): `generate_value`, `emptyString` and
  `update_value` as pure functions. The identifier source is a parameter
  `gen: nat -> string` (the identifier its k-th call would return) plus a
  count of the calls made so far. "The source is not consulted" therefore
  reads "the call count does not change".
- `SaveLifecycle` (`save_lifecycle.dfy`): the empty/populated state of one
  slot and a host saving the same record repeatedly. The slot goes from
  empty to populated once and is never regenerated.

Modelling `gen_uuid_v4` as `gen` treats it as total: every call returns a
string and none raises. Beyond that, the one assumption is `YieldsText`:
it never returns the empty string. `YieldsText` appears as a `requires` or
as the antecedent of an implication wherever it is needed. Nothing about
the identifier's format is assumed or proved. That includes its length and the version and variant
digits of section 4.4 of RFC 4122.

## Model

| member | source | states |
|---|---|---|
| PhpValues.ToText | fields/class-acf-uuid.php:131 | The `(string)` cast: null and false give "", true gives "1", a string is unchanged, and an integer gives canonical decimal text that parses back to the same integer |
| PhpValues.DecimalText | fields/class-acf-uuid.php:131 | The decimal text of a natural number is non-empty, all digits, has no leading zero unless the number is 0, and parses back to the number |
| PhpValues.ZeroText | fields/class-acf-uuid.php:131 | The integer 0 casts to "0", not to the empty string |
| PhpValues.IntTextInjective | fields/class-acf-uuid.php:131 | Two integers with the same cast text are equal |
| PhpValues.EmptyTextExactly | fields/class-acf-uuid.php:131 | The cast gives "" exactly for null, the empty string and false |
| UuidField.GenerateValue | fields/class-acf-uuid.php:116-119 | Generating asks the identifier source exactly once and returns its answer, which is non-empty whenever the source never returns "" |
| UuidField.EmptyString | fields/class-acf-uuid.php:129-132 | A value is empty if and only if it is null, the empty string or false; every other value, whitespace and "0" included, is non-empty |
| UuidField.EmptyStringIsEmptyText | fields/class-acf-uuid.php:131 | The `isset` test is redundant: a value is empty exactly when its string form is "" |
| UuidField.StringEmptyOnlyWhenNoCharacters | fields/class-acf-uuid.php:131 | A string value is empty if and only if it has no characters |
| UuidField.UpdateValue | fields/class-acf-uuid.php:148-156 | A non-empty value is returned unchanged with no call to the source; an empty value is replaced by the source's next identifier with exactly one call; the result is non-empty whenever the source never returns "" |
| UuidField.WhitespaceIsKept | fields/class-acf-uuid.php:150-155 | A whitespace-only string is saved unchanged and the source is not called |
| UuidField.ZeroIsKept | fields/class-acf-uuid.php:150-155 | The integer 0 and the string "0" are saved unchanged and the source is not called |
| UuidField.EmptyValuesFillAlike | fields/class-acf-uuid.php:151-152 | Null, "" and false are each replaced by the source's next identifier |
| UuidField.UpdateIgnoresPostAndField | fields/class-acf-uuid.php:148-156 | The saved value and the call count do not depend on the post id or the field settings |
| UuidField.PopulatedIgnoresGenerator | fields/class-acf-uuid.php:150-155 | For a non-empty value, any two identifier sources give the same save |
| UuidField.UpdateIdempotent | fields/class-acf-uuid.php:148-156 | A second save of what the first save stored returns it unchanged and makes no call, whatever post id and settings it is given |
| SaveLifecycle.SaveIsOneWay | fields/class-acf-uuid.php:150-153 | After a save the slot is populated; a populated slot is left exactly as it was; an empty slot costs exactly one call |
| SaveLifecycle.SaveAll | fields/class-acf-uuid.php:148-156 | Over any number of saves of one record, every save stores what the first stored, a non-empty start value survives them all, and the source is called at most once, only when the slot started empty |

## Left out

- The constructor, `render_field` and `input_admin_enqueue_scripts` (fields/class-acf-uuid.php:27-106): field-type registration, HTML output and asset loading through WordPress. They hold no logic of the save policy.
- acf-uuid.php: the plugin bootstrap (settings array, hook registration, text-domain loading).
- The body of `gen_uuid_v4`: utilities/uuid.php is not part of this model, and the function is randomness-based. It is the parameter `gen`, a total function to strings, assumed besides that never to return "".
- UuidField.GenerateValue: states no format for the identifier (36 characters, version digit 4, variant digit in {8,9,a,b}), because the generator that would guarantee it is not part of this model.
- A generator failure: `gen` always returns a string. If `gen_uuid_v4` raised an error or exception, nothing at fields/class-acf-uuid.php:151-152 catches it, so it would propagate out of `update_value` and no value would be returned. The model cannot express that path.
- Choice of generation algorithm, a time-based fallback identifier and a visibility flag: the code has none of them. `generate_value` takes no arguments and always calls `gen_uuid_v4`.
- PhpValues.ToText: floats, arrays and objects are not modelled, although `$value` may be any PHP value (fields/class-acf-uuid.php:126 and 143). For these kinds `emptyString` would behave as follows:
  - A float never casts to `""`. It gives digits, "-0", "INF" or "NAN", so it is non-empty and saved unchanged.
  - An array, even an empty one, casts to "Array" with a warning, so it is non-empty and saved unchanged.
  - An object without `__toString` makes the cast at line 131 throw an Error, which `update_value` does not catch.
  - An object with `__toString` is empty exactly when that method returns "".
- PhpValues.ToText: integers are unbounded rather than 64-bit. The cast cannot overflow, so only the range of representable values differs.
- Concurrent saves of one record: ordering between them is the host's concern, so only sequential saves are modelled.
