# Ferret query parser configuration, in Dafny

This project models the configuration layer of Ferret's `QueryParser` as the
Ruby binding in `ext/r_qparser.c` sets it up:

- how a field specification (an array of names, or one string whose names are
  separated by the delimiter, the bar character) becomes a set of field names, or the NULL
  sentinel meaning "no restriction" (`frt_get_fields`);
- how a parser is constructed from an optional default-field argument and an
  optional option hash (`frt_qp_init`);
- how a query is handed to the grammar and a grammar error becomes a
  `QueryParseException` (`frt_qp_parse`);
- how the set of fields is listed and replaced (`frt_qp_get_fields`,
  `frt_qp_set_fields`).

Files:

- `wrappers.dfy`: `Option` (the NULL sentinel) and `Result` (a raised exception).
- `field_specs.dfy`, module `FieldSpecs`: C-string helpers (`strchr` from an
  offset as `IndexFrom`, the NUL-terminated view of a host string as `CStr`),
  the specification `Split`/`Join` of the `'|'` loop, the meaning `FieldsOf`
  of a field specification, the imperative `GetFields` and its cutting loop
  `SplitNames` proved against it, and the lemmas about what a specification
  names. Where the C code advances a pointer `s` through the copied string,
  the model advances an offset into it; `Pieces(s, d, o)` is what the loop
  still has to produce from offset `o` on.
- `query_parser.dfy`, module `QueryParsers`: host values (`RValue`), the
  constructor's arguments, option lookup, the parser state as a value
  (`Config`), the declarative initial state `Initial`, the class
  `QueryParser` whose constructor and methods update its fields, and lemmas
  about option resolution.

Host strings reach the C code as NUL-terminated buffers (`RSTRING(v)->ptr`),
so the comparison with `"*"`, the splitting and the copies all see only the
part before the first NUL; the model makes this explicit with `CStr`.

The defaults that `qp_create` gives `handle_parse_errors`, `wild_lower`,
`or_default` and `def_slop` are defined outside this file; the constructor
takes them as a `Created` parameter instead of assuming values. The grammar
`qp_parse` is a function parameter of `Parse`.

Notes on what the code does:

- `set_fields("*")` leaves the field set empty (ext/r_qparser.c:179-181), so
  `"*"` never means "unrestricted" for the field set; construction with
  `fields: "*"` does the same (ext/r_qparser.c:98-100).
- Option keys the constructor does not know are ignored (`OtherKeysIgnored`).
- A first argument of `"*"` leaves the default fields absent, as with no
  argument.

## Model

| member | source | states |
|---|---|---|
| FieldSpecs.IndexFrom | ext/r_qparser.c:61 | `strchr` on the string from an offset on: None exactly when the character does not occur there; otherwise the position of its first occurrence at or after the offset |
| FieldSpecs.CStr | ext/r_qparser.c:55-56 | the string C code sees is the longest NUL-free prefix of the host string, and the whole string when it holds no NUL |
| FieldSpecs.Split | ext/r_qparser.c:60-66 | the pieces between delimiters: at least one, and none contains the delimiter |
| FieldSpecs.Pieces | ext/r_qparser.c:61-66 | the pieces the loop still produces from an offset on: at least one, and none contains the delimiter |
| FieldSpecs.FieldsOf | ext/r_qparser.c:41-71 | a specification yields the NULL sentinel exactly when it is a non-array whose C string is `"*"` |
| FieldSpecs.GetFields | ext/r_qparser.c:41-71 | the array loop and the string branch produce exactly the set `FieldsOf` denotes, NULL for the wildcard |
| FieldSpecs.SplitNames | ext/r_qparser.c:60-66 | the `strchr` cutting loop adds exactly the set of pieces `Split` yields, the remainder after the last delimiter included |
| FieldSpecs.JoinSplit | ext/r_qparser.c:60-66 | putting the delimiter back between the pieces gives the original string: the loop loses and invents no character |
| FieldSpecs.JoinPieces | ext/r_qparser.c:61-66 | from any offset, putting the delimiter back between the remaining pieces gives the rest of the string |
| FieldSpecs.SplitJoin | ext/r_qparser.c:60-66 | joining delimiter-free pieces and splitting gives back exactly those pieces, in order |
| FieldSpecs.PiecesShift | ext/r_qparser.c:61-64 | the pieces of a string after a prefix are the pieces of the rest on its own |
| FieldSpecs.SplitYieldsSegments | ext/r_qparser.c:60-66 | every piece produced is a maximal delimiter-free run of the string |
| FieldSpecs.PiecesAreSegments | ext/r_qparser.c:61-66 | from the start or just after a delimiter, every remaining piece is a maximal delimiter-free run |
| FieldSpecs.SegmentsAreSplit | ext/r_qparser.c:60-66 | every maximal delimiter-free run, empty runs included, is produced |
| FieldSpecs.SegmentsArePieces | ext/r_qparser.c:61-66 | every maximal delimiter-free run that starts at or after an offset is among the pieces produced from that offset on |
| FieldSpecs.SplitIsSegments | ext/r_qparser.c:60-66 | a name is produced if and only if it is a maximal delimiter-free run |
| FieldSpecs.SingleName | ext/r_qparser.c:59-67 | a string other than `"*"` with no delimiter names exactly itself |
| FieldSpecs.StringNamesPieces | ext/r_qparser.c:59-67 | a non-wildcard string names exactly its delimiter-bounded runs, untrimmed, empty runs included |
| FieldSpecs.JoinedNamesRoundTrip | ext/r_qparser.c:59-67 | names joined with the delimiter parse back to the set of those names, whatever their order and repetitions |
| FieldSpecs.ArrayNames | ext/r_qparser.c:48-53 | an array never yields the sentinel, names the C string of every element and nothing else, and has no more names than elements (duplicates collapse) |
| FieldSpecs.EmptyPieceExample | ext/r_qparser.c:60-66 | two adjacent delimiters between `a` and `b` name `a`, the empty name and `b` |
| FieldSpecs.TrailingDelimiterExample | ext/r_qparser.c:60-66 | `a` followed by a delimiter names `a` and the empty name |
| FieldSpecs.NoTrimExample | ext/r_qparser.c:60-66 | spaces around a name are kept |
| FieldSpecs.StarInListExample | ext/r_qparser.c:56-66 | `"*"` inside a delimited list is an ordinary name |
| FieldSpecs.ArrayExamples | ext/r_qparser.c:48-53 | `"*"` inside an array is an ordinary name; repeated elements collapse |
| QueryParsers.Truthy | ext/r_qparser.c:112-127 | `RTEST`: false exactly for nil and false; true for every other value, zero and the empty string included |
| QueryParsers.Lookup | ext/r_qparser.c:91-126 | `rb_hash_aref`: a present key yields its value, an absent key yields nil |
| QueryParsers.SpecOf | ext/r_qparser.c:48-55 | an array stays an array with the same elements; every other value becomes the string it converts to |
| QueryParsers.AsString | ext/r_qparser.c:55 | `rb_obj_as_string`: a string is itself, an object its own conversion, nil the empty string, and true, false and integers a non-empty string that is not the wildcard and holds no delimiter or NUL |
| QueryParsers.Initial | ext/r_qparser.c:73-133 | without an option hash the new state is the empty field set, the default fields of the argument, the standard analyzer, any field allowed, strings cleaned and the created values for the rest |
| QueryParsers.ReadFields | ext/r_qparser.c:80-104 | the default fields, the field set (empty when no `fields` option or the wildcard is given) and the chosen analyzer are exactly those `Initial` prescribes |
| QueryParsers.HandleOptions | ext/r_qparser.c:106-129 | starting from the created values with `allow_any_fields` and `clean_str` true, each option that is given and not nil overrides its own flag and nothing else, as `Initial` prescribes |
| QueryParsers.QueryParser.constructor | ext/r_qparser.c:73-133 | the new parser's state is `Initial` of its arguments, built from the results of `ReadFields` and `HandleOptions` |
| QueryParsers.QueryParser.Parse | ext/r_qparser.c:136-156 | the grammar's query is returned when it parses, and its error message is raised as a `QueryParseException` when it does not |
| QueryParsers.QueryParser.Fields | ext/r_qparser.c:158-171 | one entry per member of the field set, no duplicates, length equal to the set's size |
| QueryParsers.QueryParser.SetFields | ext/r_qparser.c:173-186 | the field set becomes the parsed set, empty for `"*"`; every other part of the state is unchanged |
| QueryParsers.NoArgsDefaults | ext/r_qparser.c:80-108 | without arguments: empty field set, no default fields, standard analyzer, any field allowed, strings cleaned, the rest as created |
| QueryParsers.OneArgIsEmptyOptions | ext/r_qparser.c:84-129 | a lone default-field argument behaves like the same argument with an empty option hash |
| QueryParsers.NilIsAbsent | ext/r_qparser.c:91-128 | an option whose value is nil has the same effect as an absent key |
| QueryParsers.OptionSetsOnlyItsField | ext/r_qparser.c:91-128 | changing one option's value changes at most the field that option controls |
| QueryParsers.OtherKeysIgnored | ext/r_qparser.c:90-129 | a key that is not one of the eight option keys changes nothing |
| QueryParsers.SameGivenSameInitial | ext/r_qparser.c:84-128 | two argument lists with the same default-field argument that give the same value, or none, for each of the eight option keys build the same parser |
| QueryParsers.FieldwiseCongruence | ext/r_qparser.c:84-128 | each field of a new parser depends only on the option that controls it, and the default fields only on the first argument |
| QueryParsers.DefaultFieldsArgument | ext/r_qparser.c:81-88 | default fields are absent exactly without an argument or for the wildcard; otherwise they are the set the argument names |
| QueryParsers.FieldsOption | ext/r_qparser.c:80-100 | the field set is empty when `fields` is absent, nil or the wildcard, and otherwise is exactly the set that option names |
| QueryParsers.AnalyzerOption | ext/r_qparser.c:90-104 | the standard analyzer is used exactly when `analyzer` is absent or nil; otherwise the given value is wrapped |
| QueryParsers.BooleanOptions | ext/r_qparser.c:107-128 | each boolean option, when given, sets its flag to false exactly when its value is false (nil counts as not given); when absent the flag keeps its created value, true for `allow_any_fields` and `clean_string` |
| QueryParsers.DefaultSlop | ext/r_qparser.c:123-125 | a given `default_slop` becomes the parser's slop; an absent one leaves the created slop |
| QueryParsers.IntegerNamesItself | ext/r_qparser.c:54-67 | an integer given as a field specification names exactly one field, its decimal form |
| QueryParsers.DecimalIsPlain | ext/r_qparser.c:55 | the decimal form of any integer is non-empty, made of digits and a minus sign only, so it is never the wildcard and holds no delimiter or NUL |
| QueryParsers.DigitsAreDigits | ext/r_qparser.c:55 | the decimal form of a natural number is non-empty and made of digits only, so it is never the wildcard and holds no delimiter |
| QueryParsers.OccurDefault | ext/r_qparser.c:120-122 | `or_default` is false exactly when `occur_default` is given as MUST, and otherwise keeps the created default when not given |

## Left out

- The query grammar (`qp_parse`, `qp_create`) is defined outside this file: the grammar is a parameter of `Parse`, and the defaults `qp_create` gives `handle_parse_errors`, `wild_lower`, `or_default` and `def_slop` are the `Created` parameter of the constructor.
- The occurrence codes come from `search.h`, which is not part of this model; `BcMust` assumes the order SHOULD, MUST, MUST_NOT (MUST is 1).
- Analyzer creation and wrapping (`frt_get_cwrapped_analyzer`, `mb_standard_analyzer_create`) are foreign calls; the model records only which analyzer is chosen.
- The host's string conversion (`rb_obj_as_string`) of arbitrary objects and of array elements is taken as done: `Other` carries the string an object converts to, and `List` holds strings. `AsString` gives the conversion of nil, true, false and integers (`Decimal`); other objects carry their converted string.
- `FIX2INT` on a value that is not an integer, or on an integer outside the C `int` range, is not modelled: the constructor requires `occur_default` and `default_slop`, when given, to be integers that fit a C `int`.
- Option keys are Ruby symbols; the model represents them by the datatype `Key`, the eight known keys plus any other symbol by name.
- The second constructor argument is taken to be a hash; a non-hash value there is not modelled.
- `QueryParsers.Lookup`: an absent key yields nil. A hash with a default value or a default proc, for which `rb_hash_aref` returns that default instead, is not modelled; `NilIsAbsent` and `OtherKeysIgnored` hold for hashes without a default.
- `rb_scan_args(argc, argv, "02", ...)` (ext/r_qparser.c:84) raises `ArgumentError` for three or more arguments; `Args` holds zero, one or two arguments, so that error is not modelled.
- `qp_create` (ext/r_qparser.c:106) is not part of this model beyond its scalar defaults. It is taken to store `all_fields`, `def_fields` and the analyzer unchanged: it neither merges the default fields into the field set nor makes absent default fields share the field set. The constructor, `Initial`, `NoArgsDefaults`, `FieldsOption` and `SetFields` rely on this.
- `QueryParsers.QueryParser.Fields`: the order of the listed names (the HashSet's internal element order) is not modelled; the field set is a `set<string>`, and the contract states membership, uniqueness and count only.
- `QueryParsers.QueryParser.Parse`: the message is passed to `rb_raise` as a format string; the effect of `%` sequences in it is not modelled.
- Memory management is not modelled: `estrdup`/`free`/`hs_destroy`, and the set created at line 80 that is dropped without being freed when a `fields` option is given.
- Ruby GC callbacks (`frt_qp_free`, `frt_qp_mark`), object registration (`object_add`) and method registration (`Init_qparser`) are runtime plumbing; only the option key names from `Init_qparser` are kept.
- `ext/r_store.c` (directories and locks) is not part of this model: every operation there forwards to function pointers whose implementations live in the store backends.
