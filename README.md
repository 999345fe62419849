# moq: the mock generator's bookkeeping, modelled in Dafny

moq generates a Go mock for an interface. It looks the interface up in a
type-checked package and walks its method set. For every parameter and result
it builds a descriptor: a name, the type text and a variadic flag. From that it
fills a template document. The document has:

- a package clause;
- one entry per interface, with the methods' signatures;
- the import lines. These are the fixed imports, then `"sync"` when there is any
  method to mock, then every package that a printed type refers to, with
  vendor directories removed.

This project models that core of `pkg/moq/moq.go` and proves what it does. It
covers the following operations.

- **`Mocker.packageQualifier`** is `Mocking.Mocker.PackageQualifier`. It is a
  method on a `Mocker` class whose field `imports` is the set that the Go code
  keeps as a `map[string]bool`.
- **The type printer `types.TypeString`** is the loop `Mocking.Mocker.RenderType`.
  It calls the qualifier for each package reference in a type, in order.
- **`extractArgs`** is split into two methods:
  - `Mocking.Mocker.ExtractArg` handles one slot;
  - `Mocking.Mocker.ExtractArgs` runs the index loop.
- **The `Mock` loop** is split into three methods:
  - `Mocking.Mocker.MockInterface` runs over the methods of one interface;
  - `Mocking.Mocker.MockInterfaces` runs over the interface names;
  - `Mocking.Mocker.ImportList` lists the recorded imports.

  `Mocking.Mocker.Mock` puts these together.
- **`New`** is `Mocking.New`, together with its package-name choice
  `Mocking.ChoosePackageName`.
- **The template's descriptors**:
  - `param.String`, `CallName` and `TypeString` are the datatype `Descriptors.Param`;
  - `method.Arglist`, `ArgCallList` and `ReturnArglist` are methods of
    `Descriptors.Method` that fill an array and join it.
- **The `Exported` template function and golint's initialisms** are in the module `Naming`.
- **`stripVendorPath` and `stripGopath`** are in the module `Paths`.
- **The parts of Go's `strings`, `fmt`, `path` and `path/filepath` that these
  functions use** are in the modules `Text` and `Paths`.

Each method is proved against functions that specify it on values:

| Method | Specified by |
|---|---|
| `PackageQualifier` | `Qualifier`, `Recorded` |
| `RenderType` | `TypeText`, `TypeImports` |
| `ExtractArgs` | `Params`, `ListImports`, `Overruns` |
| `MockInterfaces` | `FirstBad`, `Check`, `Entries`, `NamesImports`, `MocksMethods` |
| `ImportList` | `StrippedListing`, `Enumerates`, `StripAll` |
| `StripGopath` | `StripGopaths` |

The lemmas then state what those functions promise:

- names are declared or synthesised as `in1`, `in2`, …;
- synthesised names never collide;
- only the last slot of a variadic signature can be variadic, and only when its
  type is a slice;
- the recorded imports are exactly the packages of the foreign types printed;
- the first failing name decides the error;
- `"sync"` is imported exactly when some interface has a method.

### Inputs taken as parameters

Type checking is an oracle, so several inputs are parameters:

- **Types and packages.** A package is the pair of path and name that the type
  checker reports. A type is a sequence of parts, each literal text or a named
  type with its package. The package scope is a `map` from names to
  interfaces, whose flattened method sets are given, or to other types with
  their text.
- **`New`'s environment.** It receives the outcome of parsing (the set of
  package names found, or failure), the absolute directory (or failure) and the
  list of GOPATH entries.
- **`Mock`'s environment.** It receives whether old mocks could be removed, the
  loaded scope (or failure) and the fixed import lines.

### Notes on the code

- **Strings are bytes in Go.** `len`, `typename[0:2]` and `s[0:1]` count the
  bytes of UTF-8 text. The model keeps texts as characters and measures their
  length in bytes with `ByteLen`. The slice at moq.go:235 therefore runs past
  the type text exactly when that text is empty or one ASCII character
  (`OverrunsExactly`). The first two bytes are `"[]"` exactly when the first
  two characters are, because UTF-8 spends one byte on each of `[` and `]`, so
  the model compares characters.
- **Vendor directories are removed late.** The qualifier records a path as the
  type checker reports it (moq.go:217-220). The vendor directory is removed
  only when the imports are listed (moq.go:191-192). Two recorded paths that
  differ only by a vendor directory therefore give two equal import lines
  (`StrippedListingKeepsDuplicates`).
- **The Mocker follows the code as written.** Its methods keep the two defects
  listed under "## Findings", so that each can be read against its Go lines.
  The corrected definitions stand beside them, with their properties proved.

## Model

| member | source | states |
|---|---|---|
| Text.TrimPrefix | pkg/moq/moq.go:379 | when `s` starts with the prefix, the prefix followed by the result is `s`; otherwise the result is `s` |
| Text.JoinSplit | pkg/moq/moq.go:365 | joining the pieces of `strings.Split` with the same separator gives the input back |
| Text.SplitSingle | pkg/moq/moq.go:365-367 | the split has one piece exactly when the separator does not occur, and then the piece is the input |
| Text.TrimLeftSlashes | pkg/moq/moq.go:369 | the result is a suffix of the input, does not start with '/', and only slashes were dropped |
| Text.HasPrefix | pkg/moq/moq.go:379 | definition of `strings.HasPrefix`: the text begins with the prefix |
| Text.Contains | pkg/moq/moq.go:92 | definition of `strings.Contains`: the text occurs at some position |
| Text.Split | pkg/moq/moq.go:365 | definition of `strings.Split` for a non-empty separator: the pieces between successive leftmost occurrences; never empty; its properties are JoinSplit and SplitSingle |
| Text.Join | pkg/moq/moq.go:291 | definition of `strings.Join` (also at moq.go:299, 308, 310): the elements with the separator between neighbours, "" for none |
| Text.UpperChar | pkg/moq/moq.go:343 | definition: an ASCII lower-case letter becomes its capital; every other character is kept |
| Text.ToUpper | pkg/moq/moq.go:343 | definition of `strings.ToUpper` on ASCII: each character upper-cased on its own; its properties are the two lemmas below |
| Text.ToUpperIdempotent | pkg/moq/moq.go:343 | upper-casing twice is upper-casing once |
| Text.ToUpperConcat | pkg/moq/moq.go:347 | upper-casing distributes over concatenation |
| Text.Utf8Width | pkg/moq/moq.go:235 | definition: the number of bytes UTF-8 spends on a character, from one to four |
| Text.ByteLen | pkg/moq/moq.go:235 | Go's `len` of a text: at least one and at most four bytes per character |
| Text.ByteLenBelowTwo | pkg/moq/moq.go:235 | a text is shorter than two bytes exactly when it is empty or one ASCII character |
| Text.Decimal | pkg/moq/moq.go:231 | `%d` is a non-empty string of digits, a single one exactly for numbers below ten |
| Text.DecimalInjective | pkg/moq/moq.go:231 | different numbers have different `%d` spellings |
| Paths.LastSlash | pkg/moq/moq.go:212 | the position of the last '/' (or -1), with no '/' after it |
| Paths.Dir | pkg/moq/moq.go:106 | definition of `filepath.Dir` on a clean path: everything before the last '/', "/" for a path directly under the root, "." for a path without '/' |
| Paths.JoinPath | pkg/moq/moq.go:212 | definition of `filepath.Join` of two clean elements: an empty side, or "." on the left, gives the other side; otherwise a '/' between them. Every call site passes a package name or "src" on the right |
| Paths.DirOfJoin | pkg/moq/moq.go:106 | `filepath.Dir` of a name joined onto a directory is that directory, so joining the name again reproduces the path |
| Paths.NonEmpty | pkg/moq/moq.go:369 | `path.Join` keeps exactly the non-empty elements |
| Paths.JoinElems | pkg/moq/moq.go:369 | definition of `path.Join` of clean elements: the non-empty ones separated by '/' |
| Paths.JoinElemsPair | pkg/moq/moq.go:369 | proof helper: `path.Join` of two non-empty elements puts one '/' between them |
| Paths.StripVendorPath | pkg/moq/moq.go:364-370 | definition: the path itself when the split on "/vendor/" has one piece, otherwise the pieces after the first joined as a path, leading slashes trimmed; its properties are the lemmas below |
| Paths.StripVendorPathUnvendored | pkg/moq/moq.go:364-368 | a path without "/vendor/" is returned unchanged |
| Paths.SplitAfterFirstMarker | pkg/moq/moq.go:365 | proof helper: the first piece of the split is everything before the first "/vendor/" |
| Paths.NoMarkerWithoutV | pkg/moq/moq.go:365 | proof helper: text without the letter v contains no "/vendor/" |
| Paths.StripVendorPathSingle | pkg/moq/moq.go:364-370 | `x/vendor/y` with a single marker is rewritten to `y` |
| Paths.StripVendorPathNested | pkg/moq/moq.go:364-370 | `x/vendor/y/vendor/z`, with no further marker, is rewritten to `y/z`: everything after the first marker is kept |
| Paths.StripVendorPathCommentExample | pkg/moq/moq.go:360-363 | the example of the doc comment: `github.com/foo/bar/vendor/github.com/pkg/errors` becomes `github.com/pkg/errors` |
| Paths.GopathPrefix | pkg/moq/moq.go:379 | definition: `path.Join(gopath, "src") + "/"`, the prefix one GOPATH entry puts before a package directory |
| Paths.StripGopaths | pkg/moq/moq.go:377-382 | definition: `<gopath>/src/` trimmed once for each GOPATH entry, in list order; its properties are the lemmas below |
| Paths.StripGopath | pkg/moq/moq.go:377-382 | the loop trims `<gopath>/src/` for each entry in list order, exactly as `StripGopaths` does |
| Paths.StripGopathsSuffix | pkg/moq/moq.go:377-382 | stripping only removes a prefix: the result is a suffix of the input |
| Paths.StripGopathsOutside | pkg/moq/moq.go:377-382 | a directory under none of the GOPATH roots is unchanged |
| Paths.StripGopathsUnderRoot | pkg/moq/moq.go:377-382 | a directory under the first root loses exactly that root when no other root matches the rest |
| Naming.FindInitialism | pkg/moq/moq.go:342-346 | the table search finds an entry exactly when the upper-cased name is in the table, and then answers that entry |
| Naming.Exported | pkg/moq/moq.go:338-348 | same length as the input; first character upper-cased; an initialism when the capitals spell one; otherwise the tail is unchanged |
| Naming.ExportedSameCapitals | pkg/moq/moq.go:338-348 | the name and its exported form agree when upper-cased |
| Naming.ExportedIdempotent | pkg/moq/moq.go:338-348 | exporting an exported name changes nothing |
| Descriptors.Param.TypeString | pkg/moq/moq.go:330-335 | definition: `...` and the type without its leading `[]` when variadic, the type otherwise; read back by DeclarationRoundTrip |
| Descriptors.Param.CallName | pkg/moq/moq.go:323-328 | definition: the name followed by `...` when variadic, the name otherwise |
| Descriptors.Param.String | pkg/moq/moq.go:319-321 | definition: the name, a space and the type string; read back by DeclarationRoundTrip |
| Descriptors.IsSliceTextPrefix | pkg/moq/moq.go:235 | the slice test on the first two characters is the prefix test for "[]" |
| Descriptors.Declarations | pkg/moq/moq.go:287-290 | definition: `param.String()` of each parameter, in order (the ensures only gives the length) |
| Descriptors.CallNames | pkg/moq/moq.go:295-298 | definition: `CallName()` of each parameter, in order (the ensures only gives the length) |
| Descriptors.TypeStrings | pkg/moq/moq.go:303-306 | definition: `TypeString()` of each result, in order (the ensures only gives the length) |
| Descriptors.Method.Arglist | pkg/moq/moq.go:286-292 | the declarations joined by ", "; empty for no parameters and the one declaration for one |
| Descriptors.Method.ArgCallList | pkg/moq/moq.go:294-300 | the call names joined by ", "; empty for no parameters and the one name for one |
| Descriptors.Method.ReturnArglist | pkg/moq/moq.go:302-311 | the result types joined by ", ", in parentheses exactly when there is more than one result |
| Descriptors.FirstSpace | pkg/moq/moq.go:320 | the position of the first space, with no space before it |
| Descriptors.DeclarationRoundTrip | pkg/moq/moq.go:319-335 | a declaration `name type` (or `name ...T` for a variadic `[]T`) can be read back into the descriptor it was printed from |
| Mocking.ImportPathOf | pkg/moq/moq.go:211-212 | definition: the package's directory joined with its name |
| Mocking.Qualifier | pkg/moq/moq.go:214-221 | definition: "" when the import path is the mocker's own path, the package's name otherwise; characterised by OwnTypesUnqualified and SameNameSubpackageQualified |
| Mocking.Recorded | pkg/moq/moq.go:214-220 | definition: nothing for the own package, the mocker's path for a package reported as ".", the package's path otherwise; characterised by TypeImportsExactly |
| Mocking.TypeText | pkg/moq/moq.go:233 | definition: the parts' texts in order, each named type behind its qualifier; characterised by OwnTypesUnqualified |
| Mocking.TypeImports | pkg/moq/moq.go:233 | definition: the union of what the qualifier records for each part; characterised by TypeImportsExactly |
| Mocking.OwnTypesUnqualified | pkg/moq/moq.go:210-216 | a type built only from the mocker's own package is printed without qualifiers and records no import |
| Mocking.TypeImportsExactly | pkg/moq/moq.go:210-222 | printing a type records exactly the paths of the foreign packages it names, and the mocker's own path for a package reported as "." |
| Mocking.SameNameSubpackageQualified | pkg/moq/moq.go:212-221 | a sub-package that shares the mocked package's name is still qualified and its path is recorded |
| Mocking.ArgName | pkg/moq/moq.go:229-232 | definition: the declared name, or the prefix followed by the 1-based position when there is none |
| Mocking.ParamAt | pkg/moq/moq.go:228-240 | definition: the slot's name, its printed type and the three-part variadic test; characterised by ParamsSlots |
| Mocking.SlotOverruns | pkg/moq/moq.go:235 | definition: the panic condition of the slice at one slot: the last slot of a variadic signature, whose type text is under two bytes |
| Mocking.Overruns | pkg/moq/moq.go:235 | definition: extracting the tuple panics, that is its last slot overruns; characterised by OverrunsExactly |
| Mocking.OverrunsExactly | pkg/moq/moq.go:235 | the slice expression runs past the type text exactly when the last slot of a variadic signature prints as nothing or as one ASCII character |
| Mocking.Params | pkg/moq/moq.go:224-243 | definition: the descriptor of each slot of the tuple, in order (the ensures only gives the length); characterised by ParamsSlots |
| Mocking.ParamsSlots | pkg/moq/moq.go:228-240 | declared names are kept; unnamed slot i is `prefix` followed by i+1; the type is the printed type; variadic exactly on the last slot of a variadic signature whose type is a slice; every descriptor can be rendered |
| Mocking.SynthesizedNamesDistinct | pkg/moq/moq.go:229-232 | synthesised names are pairwise different |
| Mocking.VariadicResultFlagged | pkg/moq/moq.go:181-182 | as written, a variadic method returning `[]byte` gets its result `out1` flagged variadic, printed `...byte` |
| Mocking.ShortVariadicResultOverruns | pkg/moq/moq.go:235 | as written, a one-letter result type of the own package in a variadic method makes the slice run past the type text |
| Mocking.NonAsciiVariadicResultFits | pkg/moq/moq.go:235 | a one-character result type outside ASCII (`λ`, two bytes) does not make the slice run past the text, and is not flagged |
| Mocking.SliceTest | pkg/moq/moq.go:234-235 | corrected test: `strings.HasPrefix(typename, "[]")`, defined on every text |
| Mocking.SliceTestAgrees | pkg/moq/moq.go:234-235 | the corrected test answers as the slice expression wherever that does not panic, and "no" where it would |
| Mocking.IntendedMethodOf | pkg/moq/moq.go:177-182 | corrected descriptor of a method: the variadic test is applied to the parameters only |
| Mocking.IntendedMethodOfFlags | pkg/moq/moq.go:177-182 | as corrected, no result is flagged; only the last parameter of a variadic signature can be, and only when its type starts with "[]"; no result slot overruns; names and types are those of the code |
| Mocking.IntendedResultNotFlagged | pkg/moq/moq.go:181-182 | as corrected, the variadic method returning `[]byte` has the plain result `out1 []byte` |
| Mocking.MethodOf | pkg/moq/moq.go:177-182 | definition: the method descriptor as written, both tuples extracted with the method's variadic flag; VariadicResultFlagged exhibits its defect |
| Mocking.FuncOverruns | pkg/moq/moq.go:181-182 | definition: extracting the parameters or the results of the method panics |
| Mocking.ListImports | pkg/moq/moq.go:227-233 | definition: the union of what printing each slot's type records, slot by slot |
| Mocking.MethodsImports | pkg/moq/moq.go:173-183 | definition: the union of what extracting each method's parameters and results records, method by method |
| Mocking.ObjOf | pkg/moq/moq.go:170-184 | definition: the template entry of an interface: its name and the descriptor of each method, in order |
| Mocking.Check | pkg/moq/moq.go:162-168 | definition: a missing name, a type that is not an interface, or a method whose extraction would panic gives that error; otherwise no error |
| Mocking.FirstBad | pkg/moq/moq.go:161-168 | every name before the position passes the check, and the name at it fails |
| Mocking.NamesImports | pkg/moq/moq.go:161-185 | definition: the union of what the interfaces among the names record, in order; names that are not interfaces record nothing |
| Mocking.MocksMethods | pkg/moq/moq.go:158-174 | definition: the flag after the loop over the names: set once some named interface has a method; characterised by MocksMethodsExists |
| Mocking.MocksMethodsExists | pkg/moq/moq.go:173-174 | the loop's flag is set exactly when some named interface has a method |
| Mocking.SyncImport | pkg/moq/moq.go:187-189 | definition: the line "sync" when the flag is set, nothing otherwise |
| Mocking.Enumerates | pkg/moq/moq.go:191 | definition: a walk of the set that visits every recorded path exactly once |
| Mocking.StripAll | pkg/moq/moq.go:192 | definition: the stripped form of each path, in the order given (the ensures only gives the length) |
| Mocking.StrippedListing | pkg/moq/moq.go:191-192 | definition: the lines are the stripped paths of some walk of the set, one line per path |
| Mocking.StripAllStep | pkg/moq/moq.go:192 | proof helper: stripping one more path appends its stripped form |
| Mocking.EnumeratesStep | pkg/moq/moq.go:191 | proof helper: visiting one more unvisited path extends the walk |
| Mocking.StripDuplicateExample | pkg/moq/moq.go:364-370 | proof helper: the three paths of the example below, stripped |
| Mocking.StrippedListingKeepsDuplicates | pkg/moq/moq.go:191-192 | `x/vendor/y` and `y` recorded together give the line `y` twice: the listing of `{x/vendor/y, y, z}` can be `y, y, z` and is never `y, z, z` |
| Mocking.ChoosePackageName | pkg/moq/moq.go:89-101 | the given name is kept; an inferred name is a parsed package without "_test"; none when every package has "_test"; one whenever a candidate exists |
| Mocking.Mocker.constructor | pkg/moq/moq.go:112-120 | a mocker with the given directory, package name and path, and no imports |
| Mocking.Mocker.PackageQualifier | pkg/moq/moq.go:210-222 | answers "" for the mocker's own package and the package's name otherwise; records nothing, the mocker's path for ".", or the package's path; the set only grows, and a repeated call leaves it unchanged |
| Mocking.Mocker.RenderType | pkg/moq/moq.go:233 | the printed type is its qualified text; the imports grow by the type's foreign packages |
| Mocking.Mocker.ExtractArg | pkg/moq/moq.go:228-241 | the slot's descriptor; fails exactly when the slice expression would panic, that is when the last slot of a variadic signature prints as fewer than two bytes |
| Mocking.Mocker.ExtractArgs | pkg/moq/moq.go:224-244 | the descriptors of the tuple, in order; fails exactly when the last slot's slice expression would panic (fewer than two bytes); the imports grow by the tuple's foreign packages |
| Mocking.Mocker.MockInterface | pkg/moq/moq.go:169-183 | the template entry of the interface, with one method entry per method and both tuples extracted; fails exactly when some method's extraction would panic |
| Mocking.Mocker.ImportList | pkg/moq/moq.go:191-193 | the lines are the recorded paths in some walk of the set, each exactly once, with its vendor directory removed |
| Mocking.Mocker.MockInterfaces | pkg/moq/moq.go:161-185 | entries for the names in order; stops at the first name that is missing, not an interface or would panic, with that error; the flag is set when some interface has a method |
| Mocking.Mocker.Mock | pkg/moq/moq.go:139-193 | errors in the order: no names, cleanup, loading, then the first bad name. On success: the package name, one entry per name in order, and the import lines: fixed ones, "sync" exactly when some interface has a method, then one stripped line per recorded path |
| Mocking.New | pkg/moq/moq.go:79-121 | errors in the order: parsing, no package name, absolute path, whether the name was given or inferred. Succeeds whenever parsing succeeds, a name is given or some parsed package lacks "_test" (and none is named ""), and the absolute path exists. On success: the chosen name, no imports, and the path `Dir(stripGopath(abs))/name` |

## Findings

| source | as written | input that shows it | evidently intended | confidence | as-written member | corrected member |
|---|---|---|---|---|---|---|
| pkg/moq/moq.go:181-182 | the results are extracted with the method's own signature, so the variadic test applies to the result tuple too | a variadic method returning `[]byte`: its result `out1` is flagged and the return list prints `...byte`, which is not a Go result type | only the final parameter is variadic, as the comment at moq.go:234 says | not executed | Mocking.VariadicResultFlagged | Mocking.IntendedMethodOfFlags |
| pkg/moq/moq.go:235 | `typename[0:2]` slices the last slot's type text before comparing it | a variadic method whose result is a one-letter type `T` of the mocked package: the text "T" is one byte long and the slice panics | a prefix test that answers "no" for a text shorter than two bytes | not executed | Mocking.ShortVariadicResultOverruns | Mocking.SliceTestAgrees |

## Left out

- **Source parsing and type loading** (`parser.ParseDir`, `loader.Config`,
  `pkgInfoFromPath`, `Interface.Complete`). These are foreign libraries. Their
  outcomes are parameters: the parsed package names, the scope, and a type as
  a sequence of parts.
- **The type printer `types.TypeString`.** It is reduced to visiting a type's
  parts in order and asking the qualifier about each named one. Go's type
  grammar is not modelled.
- **Template execution, `imports.Process` (goimports) and `w.Write`.** These
  are library calls and I/O. `Mock` stops at the document the template would
  receive. The template is fixed text, so parsing it in `New` is left out too.
- **`removeOldMocks`** globs and deletes files. Its outcome is the parameter
  `cleanedUp`.
- **`filepath.Abs`, `build.Default.GOPATH` and `gopaths()`** are environment
  lookups. Their results are parameters.
- **Path cleaning.** Paths are taken to be clean (no `.`, `..`, doubled or
  trailing slashes), so `filepath.Join` and `path.Join` are modelled without
  `Clean`.
- **Unicode in `strings.ToUpper`.** Only ASCII letters are upper-cased.
- **Strings as characters.** Texts are `seq<char>`, not bytes. Where the code
  counts or slices bytes, the model measures with `ByteLen` and compares the
  leading ASCII characters `[` and `]`, which take one byte each. The slice
  `p.Type[2:]` (moq.go:332) is taken only after that test, so it drops the
  same two characters.
- Naming.Exported: `s[0:1]` and `s[1:]` (moq.go:347) cut the first byte, not
  the first character. For a name whose first character is outside ASCII, Go
  cuts its UTF-8 sequence apart; the model upper-cases the whole first
  character. The two agree on names that start with an ASCII character.
- **Go map iteration order** (moq.go:91, 191) is nondeterministic. The package
  name is chosen by `:|` among the candidates, and the import lines are
  specified as the stripped paths of some walk of the set.
- **`main.go`** is the command-line shell: flags, output file and
  `log.Fatalln`.
- **The generated mock's own runtime behaviour**, including its `sync.Mutex`.
  It concerns the artifact, not the generator.
- Mocking.Mocker.MockInterface: says nothing about `imports` when it fails,
  because the Go program has panicked by then.
- Mocking.Mocker.MockInterfaces: when it fails with `SliceOutOfRange` it says
  nothing about `imports`, for the same reason.
- Mocking.Mocker.Mock: like `MockInterfaces`, it says nothing about the
  imports when it fails with `SliceOutOfRange`.
