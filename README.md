# unix-perms in Dafny

A model of the core of galactixx/unix-perms. This Python library describes and
normalises the nine-bit Unix `rwxrwxrwx` permission mode, and the model covers:

- **Digit table** (`unix_perms/octals.py`, `py_perms/octals.py`). Each octal digit
  0..7 has a record with its description and its read, write and execute flags.
  The module looks a digit up, given as an integer or as text.
- **Normalisers.** They turn user input into the canonical three-character mode
  text, such as `"644"`, or raise `InvalidOctalError`:
  - `from_octal_integer` takes the characters as octal digits. For an integer
    it uses the integer's decimal text.
  - `from_decimal_repr_to_octal_integer` takes the *value* of an integer; text is
    read in base 10, or in base 8 when it starts with `0o`.
  - `is_octal_integer` and `is_decimal_repr` are the boolean forms of the two.
- **The earlier version** of the same module (`py_perms/octals.py`). It is proved
  to compute exactly what the newer one computes.
- **Permission bits** (`py_perms/permissions.py`). For each authority (owner,
  group, others) there are the `stat` bits for read, write, execute and their
  combinations.
- **Permission value types** (`py_perms/types.py`):
  - `PermissionsConfig` is a read/write/execute triple.
  - `PermissionsByte` pairs an authority with a config. It derives the mode
    text, description, decimal value and octal literal.
  - `PermissionsCode` splits a normalised mode into three bytes.

## Layout

| file | module | contents |
|---|---|---|
| `numerals.dfy` | `Numerals` | These Python built-ins as functions: `str(n)`, `format(n, 'o')`, `int(s, base)`, `str.zfill`, `str.strip`. Also their properties, such as digit round trips and length bounds. |
| `octal_types.dfy` | `OctalTypes` | `OctalConfig`, the `str`/`int` input union, the error kinds of `InvalidOctalError`, and `Result`. |
| `unix_octals.dfy` | `UnixOctals` | `unix_perms/octals.py` and its properties. |
| `py_octals.dfy` | `PyOctals` | `py_perms/octals.py`, laid out as that file is. |
| `octal_versions.dfy` | `OctalVersions` | Proofs that the two versions agree on every input. |
| `permissions.dfy` | `Stat`, `Permissions` | The `stat` constants, and the owner, group and others permission classes. |
| `perm_types.dfy` | `PermTypes` | `py_perms/types.py`. |

### How the model is built

- **Errors are values.** An `InvalidOctalError` becomes `Err(kind)`, one kind per
  distinct message: `BadLength`, `BadDigits`, `NotOctalLiteral`, `NotDecimalRepr`,
  `NotDigitText` and `DigitOutOfRange`. (unix_perms/octals.py:104 is one `raise`
  with two possible messages, so it yields `NotOctalLiteral` or `NotDecimalRepr`.)
- **Argument types.** The `Union[str, int]` argument is the datatype `Input`.
- **Mode bits.** They are `bv9`, and the `|=` accumulation in
  `PermissionsByte.permissions_code` uses bit-vector `|`.
- **`OctalPermissions`.** `py_perms/types.py` calls
  `OctalPermissions(authority)` to pick the permission class of an authority.
  That factory is not defined in `py_perms/permissions.py`, so the import at
  py_perms/types.py:11 (and at py_perms/__init__.py:2) fails and `types.py`
  cannot load as written. The evident intent is a dispatch from the authority
  to `OwnerPermissions`, `GroupPermissions` or `OthersPermissions`, which
  tests/test_octals.py:99-124 exercise against a module whose source is not
  included. The model therefore dispatches on the `Authority` value: every
  property in `Permissions` is a function of the authority.
- **Classes as datatypes.** `PermissionsByte` and `PermissionsCode` set their
  fields in `__init__` and never change them, so they are datatypes.
- **`permissions_code`** is a `method` with the source's local accumulator. Its
  result is proved equal to `PermissionsByte.Code()`, the positional mode text.
  The other byte properties are functions, and they use `Code()` in its place.

## Model

| member | source | states |
|---|---|---|
| `Numerals.DigitsRoundTrip` | unix_perms/octals.py:80 | reading the base-b digits of n back in base b gives n (`int(format(n, 'o'), 8) == n`) |
| `Numerals.OctalTextLength` | unix_perms/octals.py:80-81 | `format(n, 'o')` has at most three characters exactly when -63 <= n <= 511 |
| `Numerals.DecimalTextLength` | unix_perms/octals.py:118-121 | `str(n)` has at most three characters exactly when -99 <= n <= 999 |
| `Numerals.DecimalTextParses` | unix_perms/octals.py:118-121 | `int(str(n)) == n` for every integer |
| `UnixOctals.GetOctalBitConfig` | unix_perms/octals.py:30-36 | succeeds exactly for 0..7, giving the entry whose flags are bits 2, 1, 0 of the digit and whose description is the digit's; otherwise the range error |
| `UnixOctals.DigitTableMatchesBits` | unix_perms/octals.py:10-28 | the table's keys are exactly 0..7; each entry's flags are the digit's bits and its description the digit's; the eight entries are distinct |
| `UnixOctals.FromOctalBitToConfig` | unix_perms/octals.py:39-54 | an int succeeds iff it is 0..7; text succeeds iff `int(s)` reads a value 0..7; failing `int(s)` is the parse error, a value out of range the range error; the result's flags are the bits of that value |
| `UnixOctals.OctalBitExamples` | tests/test_octals.py:75-91 | `'007'` gives digit 7; `'47'` and `700` are out of range; non-numeric text is a parse error |
| `UnixOctals.OctalIntegerValidation` | unix_perms/octals.py:57-74 | succeeds iff the input has 1..3 characters all '0'..'7'; length error iff the length is not 1..3; digit error iff the length is fine and a character is not '0'..'7'; on success a three-character octal string that is the input left-padded with zeros |
| `UnixOctals.ToOctalStrReprConversion` | unix_perms/octals.py:77-82 | succeeds iff 0 <= n <= 511, returning three octal digits that `int(_, 8)` reads as n; too long below -63 or above 511, a digit error (the '-') for -63..-1 |
| `UnixOctals.ConversionIsCanonical` | unix_perms/octals.py:77-82 | the conversion of n is the unique three-digit octal string worth n |
| `UnixOctals.FromDecimalReprToOctalInteger` | unix_perms/octals.py:85-107 | an int succeeds iff 0..511, the result being three octal digits that read back as it in base 8; text starting `0o` that base 8 rejects is the literal error, other text that base 10 rejects the decimal error |
| `UnixOctals.TextFollowsIntegerRule` | unix_perms/octals.py:93-106 | text is normalised exactly as the integer it parses to (base 8 for `0o`, else base 10) |
| `UnixOctals.DecimalTextRoundTrip` | unix_perms/octals.py:93-106 | `str(n)` normalises exactly as n does |
| `UnixOctals.OctalLiteralRoundTrip` | unix_perms/octals.py:97-106 | `"0o" + m` normalises back to m for every three-digit octal m |
| `UnixOctals.ThreeDigitsInjective` | unix_perms/octals.py:80-82 | two three-digit octal strings of equal value are equal |
| `UnixOctals.FromOctalInteger` | unix_perms/octals.py:110-122 | text succeeds iff it has 1..3 characters all '0'..'7', giving the text left-padded with zeros to three octal digits; failing text is a digit error when its length is 1..3 and a length error otherwise |
| `UnixOctals.IsDecimalRepr` | unix_perms/octals.py:125-133 | true iff `from_decimal_repr_to_octal_integer` succeeds; for an int, iff it is 0..511 |
| `UnixOctals.IsOctalInteger` | unix_perms/octals.py:136-144 | true iff `from_octal_integer` succeeds; for text, iff it has 1..3 characters all '0'..'7' |
| `UnixOctals.IntegerTextIsNotRebased` | unix_perms/octals.py:118-121 | an int is validated as its decimal text; it succeeds iff 0 <= n <= 777 with only digits 0..7, the result reading back as n in base 10; length error iff n < -99 or n > 999; -99..-1 is a digit error |
| `UnixOctals.NormaliseIdempotent` | unix_perms/octals.py:110-122 | normalising a normalised mode again returns it unchanged |
| `UnixOctals.IsOctalIntegerMeaning` | unix_perms/octals.py:136-144 | `is_octal_integer` is true iff `from_octal_integer` succeeds, i.e. text of 1..3 octal digits or an int 0..777 with only octal digits |
| `UnixOctals.IsDecimalReprMeaning` | unix_perms/octals.py:125-133 | `is_decimal_repr` is true iff the decimal-repr normaliser succeeds, i.e. a value 0..511 |
| `UnixOctals.OctalIntegerExamples` | tests/test_octals.py:42-67 | `'111'` stays, `0` becomes `'000'`, `'118'` is a digit error, `'7777'` a length error |
| `UnixOctals.PaddingExample` | tests/test_octals.py:44-45 | a single octal digit d normalises to `'00' + d` |
| `UnixOctals.IntegerModeExample` | tests/test_octals.py:49 | `438` becomes `'666'` |
| `UnixOctals.OredModeExample` | tests/test_octals.py:46 | `0o100 \| 0o200 \| 0o070` (248) becomes `'370'` |
| `UnixOctals.OctalLiteralExample` | unix_perms/octals.py:97-106 | `'0o777'` becomes `'777'` |
| `UnixOctals.DecimalTextTooLongExample` | unix_perms/octals.py:93-106 | `'999'` is read as 999, whose octal text `'1747'` is too long |
| `PyOctals.GetOctalBitConfig` | py_perms/octals.py:28-34 | as in the newer version: succeeds exactly for 0..7 with that digit's bits and description |
| `PyOctals.FromOctalBitToConfig` | py_perms/octals.py:37-54 | an int succeeds iff 0..7; text iff `int(s)` reads a value 0..7; flags are the bits of that value |
| `PyOctals.OctalIntegerValidation` | py_perms/octals.py:57-76 | succeeds iff the input has 1..3 octal digits; same length and digit errors and the same zero-padded result as the newer version |
| `PyOctals.ToOctalStrReprConversion` | py_perms/octals.py:79-84 | a successful conversion is three octal digits |
| `PyOctals.FromDecimalReprToOctalInteger` | py_perms/octals.py:87-110 | a successful normalisation is three octal digits |
| `PyOctals.FromOctalInteger` | py_perms/octals.py:113-124 | text succeeds iff it has 1..3 characters all '0'..'7', giving the text left-padded with zeros; failing text is a digit error when its length is 1..3 and a length error otherwise; a successful result is three octal digits |
| `PyOctals.IsOctalInteger` | py_perms/octals.py:127-136 | true iff `from_octal_integer` succeeds; for text, iff it has 1..3 characters all '0'..'7' |
| `OctalVersions.SameDigitTable` | py_perms/octals.py:8-26 | the two digit tables are equal |
| `OctalVersions.SameBitConfig` | py_perms/octals.py:28-34 | both versions of `_get_octal_bit_config` return the same result for every integer |
| `OctalVersions.SameDigitLookup` | py_perms/octals.py:37-54 | both versions of `from_octal_bit_to_config` return the same result for every input |
| `OctalVersions.SameValidation` | py_perms/octals.py:57-76 | both versions of `_octal_integer_validation` agree on every string |
| `OctalVersions.SameConversion` | py_perms/octals.py:79-84 | both versions of `_to_octal_str_repr_conversion` agree on every integer |
| `OctalVersions.SameDecimalRepr` | py_perms/octals.py:79-110 | both versions of `from_decimal_repr_to_octal_integer` agree on every input |
| `OctalVersions.SameOctalInteger` | py_perms/octals.py:113-136 | both versions of `from_octal_integer` and `is_octal_integer` agree on every input |
| `Permissions.NoPermissions` | py_perms/permissions.py:7-9 | `no_permissions` has none of the authority's bits, and OR-ing it into a single bit leaves that bit |
| `Permissions.Read` | py_perms/permissions.py:58-60 | the read bit of an authority is 4 in its octal place (0o400, 0o040, 0o004) |
| `Permissions.Write` | py_perms/permissions.py:70-72 | the write bit is 2 in the authority's place |
| `Permissions.Execute` | py_perms/permissions.py:74-76 | the execute bit is 1 in the authority's place |
| `Permissions.ReadWrite` | py_perms/permissions.py:54-56 | the OR of read and write, 6 in the authority's place |
| `Permissions.ReadExecute` | py_perms/permissions.py:62-64 | the OR of read and execute, 5 in the authority's place |
| `Permissions.WriteExecute` | py_perms/permissions.py:66-68 | the OR of write and execute, 3 in the authority's place |
| `Permissions.ReadWriteExecute` | py_perms/permissions.py:50-52 | the `S_IRWX*` constant is the OR of the three single bits, 7 in the authority's place |
| `Permissions.SingleBitsArePosix` | py_perms/permissions.py:7-9 | `no_permissions` is 0 for all; the nine single bits are 256, 128, 64, 32, 16, 8, 4, 2, 1 |
| `Permissions.AuthoritiesAreDisjoint` | py_perms/permissions.py:47-140 | each authority's properties stay inside its own digit; the three digits are disjoint and together make 0o777 |
| `Permissions.AuthorityShift` | py_perms/permissions.py:79-140 | owner bits are group bits shifted one octal digit up, group bits are others bits shifted one digit up |
| `PermTypes.PermissionsConfig.Digit` | py_perms/types.py:13-18 | the digit of a configuration is below 8 and its bits 2, 1, 0 are read, write, execute |
| `PermTypes.PermissionsConfig.FromOctalBit` | py_perms/types.py:20-25 | fails exactly when the digit lookup fails, with the same error; otherwise the configuration's digit is the given or parsed value |
| `PermTypes.ConfigDigitRoundTrip` | py_perms/types.py:20-25 | a configuration's own digit, as int or one-character text, gives the configuration back |
| `PermTypes.DigitInjective` | py_perms/types.py:13-18 | configurations with the same digit are equal |
| `PermTypes.FromOctalBitExamples` | tests/test_types.py:23-37 | `'4'` is read only, `1` execute only, `2` write only, `'007'` everything, `700` out of range |
| `PermTypes.PermissionsByte.ReadPermission` | py_perms/types.py:59-61 | the stored read flag, which holds exactly when the byte's accumulated mode has the authority's read bit |
| `PermTypes.PermissionsByte.WritePermission` | py_perms/types.py:63-65 | the stored write flag, which holds exactly when the byte's accumulated mode has the authority's write bit |
| `PermTypes.PermissionsByte.ExecutePermission` | py_perms/types.py:67-69 | the stored execute flag, which holds exactly when the byte's accumulated mode has the authority's execute bit |
| `PermTypes.PermissionsByte.Code` | py_perms/types.py:71-83 | the mode text of a byte has three octal digits |
| `PermTypes.PermissionsByte.PermissionsCode` | py_perms/types.py:71-83 | the accumulated bits rendered in base 8 and zero-filled are the digit 4r+2w+x in the authority's position (`d00`, `0d0`, `00d`) and '0' elsewhere |
| `PermTypes.ModeBitsValue` | py_perms/types.py:73-81 | the accumulated bits equal the configuration's digit times the authority's octal place |
| `PermTypes.ModeBitsAreNamedProperties` | py_perms/types.py:73-81 | the accumulated bits are the authority's named property for the configuration (`read_write` for r+w, and so on) |
| `PermTypes.PlacedDigitText` | py_perms/types.py:83 | `format(d * place, 'o').zfill(3)` puts d in the authority's position |
| `PermTypes.PermissionsByte.PermissionsDescription` | py_perms/types.py:85-92 | the description is the digit table's description of the configuration's digit, for every configuration (the empty strip case reads as 0) |
| `PermTypes.CodeStripsToDigit` | py_perms/types.py:87-90 | stripping '0' from the code leaves nothing for digit 0 and the digit alone otherwise, which `int` reads as the digit |
| `PermTypes.PermissionsByte.PermissionsCodeAsInt` | py_perms/types.py:104-106 | the code read in base 10 is the digit times 100, 10 or 1 by authority |
| `PermTypes.PermissionsByte.PermissionsCodeAsOctalLiteral` | py_perms/types.py:108-110 | `"0o"` followed by the code; read in base 8 it is the digit in the authority's octal place |
| `PermTypes.OctalLiteralNormalises` | py_perms/types.py:108-110 | a byte's octal literal normalises back to its code |
| `PermTypes.CodeIsNormalised` | py_perms/types.py:71-83 | a byte's code is a mode that `from_octal_integer` returns unchanged |
| `PermTypes.DefaultByteExample` | py_perms/types.py:34 | a default byte has code `'000'`, description "No permissions" and value 0 |
| `PermTypes.OwnerWriteExample` | tests/test_types.py:47-60 | owner write-only gives `'200'`, 200, `'0o200'` and "Write permission only" |
| `PermTypes.PermissionsCode.GenerateClassArguments` | py_perms/types.py:135-147 | succeeds iff the first three characters are octal digits; the bytes are owner, group, others, and their codes hold characters 0, 1, 2 in their own positions |
| `PermTypes.OctalBitOfChar` | py_perms/types.py:137-139 | `from_octal_bit` on one character of the mode succeeds iff it is an octal digit, and the configuration's digit is that character |
| `PermTypes.SpellsMode` | py_perms/types.py:135-147 | a normalised three-digit mode splits into bytes that spell it again |
| `PermTypes.PermissionsCode.FromOctalInteger` | py_perms/types.py:149-154 | fails exactly when `from_octal_integer` fails, with its error; otherwise the bytes are owner, group and others and spell its result |
| `PermTypes.PermissionsCode.FromOctalDecimalRepr` | py_perms/types.py:156-161 | fails exactly when `from_decimal_repr_to_octal_integer` fails, with its error; otherwise the bytes are owner, group and others and spell its result |
| `PermTypes.ModeRoundTrip` | py_perms/types.py:135-154 | three bytes of owner, group and others are recovered from the mode they spell |

## Left out

- `PermissionsByte.__add__` and `__sub__`: these are stubs that return `None` (py_perms/types.py:42-48).
- `PermissionsCode.permissions_code`, `permissions_code_as_int`, `permissions_code_as_octal` and `permissions_code_as_octal_string`: each adds bytes with `+`, and that fails at run time because `__add__` returns `None` (py_perms/types.py:163-177). No combined mode is modelled. `PermissionsCode.Digits` is only the mode text the three bytes spell, used to state the round trips.
- `__repr__` and `__str__`: cosmetic text.
- `permissions_description_detailed`: only a dict made of the byte's existing properties (py_perms/types.py:94-102).
- The `TypeError` branches for arguments that are neither `str` nor `int`: `Input` admits only those two. The branch at py_perms/octals.py:108-110 names an unbound variable, which would end in a `NameError`/`UnboundLocalError` in place of the `TypeError`. That branch is unreachable in the model.
- Python's `int()` leniency: surrounding whitespace, `+` signs, `_` separators, the `0O` spelling and non-ASCII digits are not accepted by `ParseInt`. The model accepts an optional `-`, then digits, with an optional `0o` in base 8. `PermTypes.SingleDigitParse` and the other lemmas about `int()` hold for this grammar only.
- The message text of each `InvalidOctalError`: only which message it is, as the error kind (one kind per distinct message).
- The pydantic `BaseModel` machinery behind `PermissionsConfig`: it is a plain datatype.
- The `stat` module: its constants are written out as literals.
- `py_perms/exceptions.py`, `py_perms/utils.py`, `unix_perms/models.py` and the package `__init__` re-exports are not part of this model.
- The tests import the modules `unix_perms/_octals.py`, `_types.py` and `_permissions.py`, whose source is not included. These tests are cited only where the functions shown here behave the same; the combined-mode expectations (`'274'`, `'276'`) are not modelled.
