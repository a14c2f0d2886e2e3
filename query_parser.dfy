/**
 * The query parser as the host binding configures it (ext/r_qparser.c):
 * construction from an optional default-field argument and an optional
 * option hash, parsing through the grammar, and reading and replacing the
 * set of fields a query may name.
 *
 * The grammar itself (qp_parse), the defaults qp_create gives a new parser
 * and the analyzers are defined outside this layer; they appear here as
 * parameters.
 */
module QueryParsers {
  import opened Wrappers
  import opened FieldSpecs

  /** The range of a C `int`, which FIX2INT converts to. */
  newtype int32 = x: int | -0x8000_0000 <= x < 0x8000_0000

  /** A host value, as far as this layer looks at it. */
  datatype RValue =
    | Nil
    | False
    | True
    | Fixnum(n: int32)
    | Text(s: string)
    /** an array, its elements already converted to strings */
    | List(items: seq<string>)
    /** any other host object, with the string its conversion yields */
    | Other(id: nat, asString: string)

  /** RTEST: nil and false are false; every other value, zero and the empty
      string included, is true. */
  predicate Truthy(v: RValue)
    ensures v.Nil? || v.False? ==> !Truthy(v)
    ensures v.True? || v.Fixnum? || v.Text? || v.List? || v.Other? ==> Truthy(v)
  {
    !(v.Nil? || v.False?)
  }

  /** The decimal form of an integer, as the host writes it. */
  function Decimal(n: int): string
  {
    if n < 0 then "-" + Digits(-n) else Digits(n)
  }

  /** The decimal digits of a natural number, most significant first. */
  function Digits(n: nat): string
  {
    (if n < 10 then [] else Digits(n / 10)) + ["0123456789"[n % 10]]
  }

  /** What frt_get_fields sees of a host value: an array stays an array;
      anything else goes through the host's string conversion. */
  function SpecOf(v: RValue): (r: FieldSpec)
    ensures r.Arr? <==> v.List?
    ensures v.List? ==> r.items == v.items
    ensures r.Str? ==> r.s == AsString(v)
  {
    if v.List? then Arr(v.items) else Str(AsString(v))
  }

  /** rb_obj_as_string on a value that is not an array. */
  function AsString(v: RValue): (r: string)
    requires !v.List?
    ensures v.Text? ==> r == v.s
    ensures v.Other? ==> r == v.asString
    ensures v.Nil? ==> r == ""
    ensures v.True? || v.False? || v.Fixnum? ==> r != [] && r != Wildcard && Separator !in r && '\0' !in r
  {
    match v
    case Nil => ""
    case False => "false"
    case True => "true"
    case Fixnum(n) => DecimalIsPlain(n as int); Decimal(n as int)
    case Text(s) => s
    case Other(_, s) => s
  }

  /** True when a host value, given as a field specification, is the wildcard. */
  predicate IsWildcard(v: RValue)
  {
    FieldsOf(SpecOf(v)).None?
  }

  /** The keys of the option hash, symbols in the host: the eight the
      constructor consults (`:analyzer`, `:fields`, `:handle_parse_errors`,
      `:allow_any_fields`, `:wild_lower`, `:occur_default`, `:default_slop`,
      `:clean_string`) and any other symbol, by its name. */
  datatype Key =
    | AnalyzerKey
    | FieldsKey
    | HandleParseErrorsKey
    | AllowAnyFieldsKey
    | WildLowerKey
    | OccurDefaultKey
    | DefaultSlopKey
    | CleanStringKey
    | OtherKey(name: string)

  /** The occurrence code of a required boolean clause (SHOULD is 0, MUST 1, MUST_NOT 2). */
  const BcMust: int32 := 1

  /** The constructor's arguments: none, a default-field value, or a
      default-field value and an option hash. */
  datatype Args =
    | NoArgs
    | OneArg(defField: RValue)
    | TwoArgs(defField: RValue, options: map<Key, RValue>)

  /** rb_hash_aref: the value under `key`, nil when there is none. */
  function Lookup(options: map<Key, RValue>, key: Key): (r: RValue)
    ensures key in options ==> r == options[key]
    ensures key !in options ==> r.Nil?
  {
    if key in options then options[key] else Nil
  }

  /** The value of an option the constructor acts on: None when there is no
      option hash, when the key is absent, and when its value is nil. */
  function Given(args: Args, key: Key): Option<RValue>
  {
    if args.TwoArgs? && !Lookup(args.options, key).Nil? then Some(args.options[key]) else None
  }

  /** FIX2INT is only meaningful on an integer: the integer options, when
      given, hold integers that fit a C int. */
  predicate FixnumOptions(args: Args)
  {
    && (Given(args, OccurDefaultKey).Some? ==> Given(args, OccurDefaultKey).value.Fixnum?)
    && (Given(args, DefaultSlopKey).Some? ==> Given(args, DefaultSlopKey).value.Fixnum?)
  }

  /** The analyzer a parser uses. */
  datatype Analyzer =
    /** the standard analyzer, lower-casing, made when none is given */
    | StandardAnalyzer
    /** the analyzer wrapped by a host value */
    | Wrapped(handle: RValue)

  /** The option values qp_create gives a new parser. */
  datatype Created = Created(handleParseErrors: bool, wildLower: bool, orDefault: bool, defSlop: int32)

  /** The whole state of a parser, as a value. */
  datatype Config = Config(
    allFields: set<string>,
    defFields: Option<set<string>>,
    analyzer: Analyzer,
    handleParseErrors: bool,
    allowAnyFields: bool,
    wildLower: bool,
    orDefault: bool,
    defSlop: int32,
    cleanStr: bool)

  /** The default fields: absent without an argument; otherwise what the
      argument names, which is absent again for the wildcard. */
  function DefaultFields(args: Args): Option<set<string>>
  {
    if args.NoArgs? then None else FieldsOf(SpecOf(args.defField))
  }

  /** The field set: empty unless a `fields` option is given; the wildcard
      leaves it empty too, never the NULL sentinel. */
  function AllFields(args: Args): set<string>
  {
    match Given(args, FieldsKey)
    case None => {}
    case Some(v) => FieldsOf(SpecOf(v)).GetOr({})
  }

  /** The analyzer: the one the `analyzer` option wraps, the standard one otherwise. */
  function ChosenAnalyzer(args: Args): Analyzer
  {
    match Given(args, AnalyzerKey)
    case None => StandardAnalyzer
    case Some(v) => Wrapped(v)
  }

  /** A boolean option: the truth of its value when given, `default` otherwise. */
  function BoolOption(args: Args, key: Key, default: bool): bool
  {
    match Given(args, key)
    case None => default
    case Some(v) => Truthy(v)
  }

  /** The occurrence default: when `occur_default` is given, `or_default` is
      false exactly for MUST; otherwise it keeps `default`. */
  function OrDefault(args: Args, default: bool): bool
    requires FixnumOptions(args)
  {
    match Given(args, OccurDefaultKey)
    case None => default
    case Some(v) => v.n != BcMust
  }

  /** The default slop: the integer given, `default` otherwise. */
  function DefSlop(args: Args, default: int32): int32
    requires FixnumOptions(args)
  {
    match Given(args, DefaultSlopKey)
    case None => default
    case Some(v) => v.n
  }

  /** The state a new parser has: each option that is given sets its field;
      every other field keeps what qp_create or the constructor put there
      (`allow_any_fields` and `clean_str` are true). */
  function Initial(args: Args, created: Created): (c: Config)
    requires FixnumOptions(args)
    ensures !args.TwoArgs? ==>
      c == Config({}, DefaultFields(args), StandardAnalyzer, created.handleParseErrors, true,
                  created.wildLower, created.orDefault, created.defSlop, true)
  {
    Config(
      allFields := AllFields(args),
      defFields := DefaultFields(args),
      analyzer := ChosenAnalyzer(args),
      handleParseErrors := BoolOption(args, HandleParseErrorsKey, created.handleParseErrors),
      allowAnyFields := BoolOption(args, AllowAnyFieldsKey, true),
      wildLower := BoolOption(args, WildLowerKey, created.wildLower),
      orDefault := OrDefault(args, created.orDefault),
      defSlop := DefSlop(args, created.defSlop),
      cleanStr := BoolOption(args, CleanStringKey, true))
  }

  /** The outcome of the grammar on a parser's state and a query string. */
  datatype ParseOutcome<Q> = Parsed(query: Q) | Raised(msg: string)

  /** The exception the host sees when a query does not parse. */
  datatype QueryParseException = QueryParseException(msg: string)

  /** The first half of frt_qp_init: the default fields from the first
      argument, then the `analyzer` and `fields` options; a missing or
      wildcard `fields` leaves the field set empty. */
  method ReadFields(args: Args) returns (fields: set<string>, defaults: Option<set<string>>, chosen: Analyzer)
    ensures fields == AllFields(args)
    ensures defaults == DefaultFields(args)
    ensures chosen == ChosenAnalyzer(args)
  {
    var all: Option<set<string>> := Some({});
    defaults := None;
    var wrapped: Option<Analyzer> := None;
    if !args.NoArgs? {
      defaults := GetFields(SpecOf(args.defField));
    }
    if args.TwoArgs? {
      var v := Lookup(args.options, AnalyzerKey);
      if !v.Nil? {
        wrapped := Some(Wrapped(v));
      }
      v := Lookup(args.options, FieldsKey);
      if !v.Nil? {
        all := GetFields(SpecOf(v));
      }
    }
    if all.None? {
      all := Some({});
    }
    fields := all.value;
    chosen := wrapped.GetOr(StandardAnalyzer);
  }

  /** The second half of frt_qp_init: the values qp_create gives, with
      `allow_any_fields` and `clean_str` then set to true, each overridden
      by its option when that option is given. */
  method HandleOptions(args: Args, created: Created)
    returns (handleErrors: bool, anyFields: bool, lower: bool, orDefault: bool, slop: int32, clean: bool)
    requires FixnumOptions(args)
    ensures handleErrors == BoolOption(args, HandleParseErrorsKey, created.handleParseErrors)
    ensures anyFields == BoolOption(args, AllowAnyFieldsKey, true)
    ensures lower == BoolOption(args, WildLowerKey, created.wildLower)
    ensures orDefault == OrDefault(args, created.orDefault)
    ensures slop == DefSlop(args, created.defSlop)
    ensures clean == BoolOption(args, CleanStringKey, true)
  {
    handleErrors, anyFields, lower := created.handleParseErrors, true, created.wildLower;
    orDefault, slop, clean := created.orDefault, created.defSlop, true;
    if args.TwoArgs? {
      var options := args.options;
      var v := Lookup(options, HandleParseErrorsKey);
      if !v.Nil? {
        handleErrors := Truthy(v);
      }
      assert handleErrors == BoolOption(args, HandleParseErrorsKey, created.handleParseErrors);
      v := Lookup(options, AllowAnyFieldsKey);
      if !v.Nil? {
        anyFields := Truthy(v);
      }
      assert anyFields == BoolOption(args, AllowAnyFieldsKey, true);
      v := Lookup(options, WildLowerKey);
      if !v.Nil? {
        lower := Truthy(v);
      }
      assert lower == BoolOption(args, WildLowerKey, created.wildLower);
      v := Lookup(options, OccurDefaultKey);
      if !v.Nil? {
        orDefault := if v.n == BcMust then false else true;
      }
      assert orDefault == OrDefault(args, created.orDefault);
      v := Lookup(options, DefaultSlopKey);
      if !v.Nil? {
        slop := v.n;
      }
      assert slop == DefSlop(args, created.defSlop);
      v := Lookup(options, CleanStringKey);
      if !v.Nil? {
        clean := Truthy(v);
      }
      assert clean == BoolOption(args, CleanStringKey, true);
    }
  }

  class QueryParser {
    var allFields: set<string>
    var defFields: Option<set<string>>
    var analyzer: Analyzer
    var handleParseErrors: bool
    var allowAnyFields: bool
    var wildLower: bool
    var orDefault: bool
    var defSlop: int32
    var cleanStr: bool

    /** The parser's state as a value. */
    function State(): Config
      reads this
    {
      Config(allFields, defFields, analyzer, handleParseErrors, allowAnyFields,
             wildLower, orDefault, defSlop, cleanStr)
    }

    /** frt_qp_init: reads the default fields and the `analyzer` and `fields`
        options, creates the parser, sets `allow_any_fields` and `clean_str`,
        then lets each given option override its field. */
    constructor (args: Args, created: Created)
      requires FixnumOptions(args)
      ensures State() == Initial(args, created)
    {
      var fields, defaults, chosen := ReadFields(args);
      // qp_create, then allow_any_fields and clean_str set to true, then the options
      var handleErrors, anyFields, lower, orDefaultNow, slop, clean := HandleOptions(args, created);
      allFields, defFields, analyzer := fields, defaults, chosen;
      handleParseErrors, allowAnyFields, wildLower := handleErrors, anyFields, lower;
      orDefault, defSlop, cleanStr := orDefaultNow, slop, clean;
    }

    /** frt_qp_parse: hands the query's C string to the grammar and turns an
        error the grammar raises into a QueryParseException with its message. */
    method Parse<Q>(query: string, grammar: (Config, string) -> ParseOutcome<Q>)
      returns (r: Result<Q, QueryParseException>)
      ensures r.Ok? <==> grammar(State(), CStr(query)).Parsed?
      ensures r.Ok? ==> r.value == grammar(State(), CStr(query)).query
      ensures r.Err? ==> r.error.msg == grammar(State(), CStr(query)).msg
    {
      var outcome := grammar(State(), CStr(query));
      match outcome
      case Parsed(q) => r := Ok(q);
      case Raised(msg) => r := Err(QueryParseException(msg));
    }

    /** frt_qp_get_fields: lists the fields, each once. */
    method Fields() returns (names: seq<string>)
      ensures |names| == |allFields|
      ensures forall i, j :: 0 <= i < j < |names| ==> names[i] != names[j]
      ensures forall f :: f in names <==> f in allFields
    {
      names := [];
      var rest := allFields;
      while rest != {}
        invariant rest <= allFields
        invariant forall f :: f in allFields <==> f in names || f in rest
        invariant forall f :: f in names ==> f !in rest
        invariant forall i, j :: 0 <= i < j < |names| ==> names[i] != names[j]
        invariant |names| + |rest| == |allFields|
        decreases |rest|
      {
        var f :| f in rest;
        names := names + [f];
        rest := rest - {f};
      }
    }

    /** frt_qp_set_fields: replaces the set of fields wholesale; the wildcard
        leaves it empty. Nothing else changes. */
    method SetFields(v: RValue)
      modifies this`allFields
      ensures allFields == FieldsOf(SpecOf(v)).GetOr({})
      ensures IsWildcard(v) ==> allFields == {}
      ensures State() == old(State()).(allFields := allFields)
    {
      var fields := GetFields(SpecOf(v));
      if fields.None? {
        fields := Some({});
      }
      allFields := fields.value;
    }
  }

  // ---------------------------------------------------------------------------
  // Properties of option resolution

  /** With no arguments a parser restricts no default fields, has an empty
      set of fields, the standard analyzer, allows any field and cleans
      query strings; the rest is what qp_create set. */
  lemma NoArgsDefaults(created: Created)
    ensures Initial(NoArgs, created) ==
              Config({}, None, StandardAnalyzer, created.handleParseErrors, true,
                     created.wildLower, created.orDefault, created.defSlop, true)
  {
  }

  /** A single argument is the same as that argument with an empty option hash. */
  lemma OneArgIsEmptyOptions(d: RValue, created: Created)
    ensures Initial(OneArg(d), created) == Initial(TwoArgs(d, map[]), created)
  {
  }

  /** An option whose value is nil has the same effect as an absent one. */
  lemma NilIsAbsent(d: RValue, options: map<Key, RValue>, key: Key, created: Created)
    requires FixnumOptions(TwoArgs(d, options))
    ensures FixnumOptions(TwoArgs(d, options[key := Nil]))
    ensures FixnumOptions(TwoArgs(d, options - {key}))
    ensures Initial(TwoArgs(d, options[key := Nil]), created) == Initial(TwoArgs(d, options - {key}), created)
  {
    var a, b := TwoArgs(d, options), TwoArgs(d, options[key := Nil]);
    forall k | k != key
      ensures Given(b, k) == Given(a, k)
    {
      GivenElsewhere(a, key, Nil, k);
    }
    SameGivenSameInitial(b, TwoArgs(d, options - {key}), created);
  }

  /** The parser built depends on the arguments only through the default-field
      argument and the eight options it consults. */
  lemma SameGivenSameInitial(a: Args, b: Args, created: Created)
    requires a.NoArgs? == b.NoArgs? && (!a.NoArgs? ==> a.defField == b.defField)
    requires forall k: Key :: !k.OtherKey? ==> Given(a, k) == Given(b, k)
    requires FixnumOptions(a)
    ensures FixnumOptions(b)
    ensures Initial(a, created) == Initial(b, created)
  {
    assert Given(a, OccurDefaultKey) == Given(b, OccurDefaultKey);
    assert Given(a, DefaultSlopKey) == Given(b, DefaultSlopKey);
    FieldwiseCongruence(a, b, created);
    assert Given(a, FieldsKey) == Given(b, FieldsKey);
    assert Given(a, AnalyzerKey) == Given(b, AnalyzerKey);
    assert Given(a, HandleParseErrorsKey) == Given(b, HandleParseErrorsKey);
    assert Given(a, AllowAnyFieldsKey) == Given(b, AllowAnyFieldsKey);
    assert Given(a, WildLowerKey) == Given(b, WildLowerKey);
    assert Given(a, CleanStringKey) == Given(b, CleanStringKey);
  }

  /** Two configurations agree on every field except the one `key` controls. */
  predicate AgreeExcept(c: Config, c': Config, key: Key)
  {
    && c.defFields == c'.defFields
    && (key != FieldsKey ==> c.allFields == c'.allFields)
    && (key != AnalyzerKey ==> c.analyzer == c'.analyzer)
    && (key != HandleParseErrorsKey ==> c.handleParseErrors == c'.handleParseErrors)
    && (key != AllowAnyFieldsKey ==> c.allowAnyFields == c'.allowAnyFields)
    && (key != WildLowerKey ==> c.wildLower == c'.wildLower)
    && (key != OccurDefaultKey ==> c.orDefault == c'.orDefault)
    && (key != DefaultSlopKey ==> c.defSlop == c'.defSlop)
    && (key != CleanStringKey ==> c.cleanStr == c'.cleanStr)
  }

  /** Setting one option leaves what every other key gives unchanged. */
  lemma GivenElsewhere(args: Args, key: Key, v: RValue, k: Key)
    requires args.TwoArgs? && k != key
    ensures Given(args.(options := args.options[key := v]), k) == Given(args, k)
  {
  }

  /** Setting one option changes at most the field it controls. */
  lemma OptionSetsOnlyItsField(d: RValue, options: map<Key, RValue>, key: Key, v: RValue,
                               created: Created)
    requires FixnumOptions(TwoArgs(d, options)) && FixnumOptions(TwoArgs(d, options[key := v]))
    ensures AgreeExcept(Initial(TwoArgs(d, options[key := v]), created), Initial(TwoArgs(d, options), created), key)
  {
    var before := TwoArgs(d, options);
    var after := TwoArgs(d, options[key := v]);
    forall k | k != key
      ensures Given(after, k) == Given(before, k)
    {
      GivenElsewhere(before, key, v, k);
    }
    FieldwiseCongruence(after, before, created);
  }

  /** Each field of the parser depends only on the option that controls it
      (and the default fields only on the first argument). */
  lemma FieldwiseCongruence(a: Args, b: Args, created: Created)
    requires a.NoArgs? == b.NoArgs? && (!a.NoArgs? ==> a.defField == b.defField)
    requires FixnumOptions(a) && FixnumOptions(b)
    ensures var c, c' := Initial(a, created), Initial(b, created);
      && c.defFields == c'.defFields
      && (Given(a, FieldsKey) == Given(b, FieldsKey) ==> c.allFields == c'.allFields)
      && (Given(a, AnalyzerKey) == Given(b, AnalyzerKey) ==> c.analyzer == c'.analyzer)
      && (Given(a, HandleParseErrorsKey) == Given(b, HandleParseErrorsKey) ==>
            c.handleParseErrors == c'.handleParseErrors)
      && (Given(a, AllowAnyFieldsKey) == Given(b, AllowAnyFieldsKey) ==> c.allowAnyFields == c'.allowAnyFields)
      && (Given(a, WildLowerKey) == Given(b, WildLowerKey) ==> c.wildLower == c'.wildLower)
      && (Given(a, OccurDefaultKey) == Given(b, OccurDefaultKey) ==> c.orDefault == c'.orDefault)
      && (Given(a, DefaultSlopKey) == Given(b, DefaultSlopKey) ==> c.defSlop == c'.defSlop)
      && (Given(a, CleanStringKey) == Given(b, CleanStringKey) ==> c.cleanStr == c'.cleanStr)
  {
  }

  /** A key that is not one of the option keys changes nothing. */
  lemma OtherKeysIgnored(d: RValue, options: map<Key, RValue>, key: Key, v: RValue,
                         created: Created)
    requires key.OtherKey?
    requires FixnumOptions(TwoArgs(d, options))
    ensures FixnumOptions(TwoArgs(d, options[key := v]))
    ensures Initial(TwoArgs(d, options[key := v]), created) == Initial(TwoArgs(d, options), created)
  {
    var a := TwoArgs(d, options);
    forall k: Key | !k.OtherKey?
      ensures Given(a, k) == Given(TwoArgs(d, options[key := v]), k)
    {
      GivenElsewhere(a, key, v, k);
    }
    SameGivenSameInitial(a, TwoArgs(d, options[key := v]), created);
  }

  /** Without an argument there are no default fields; otherwise they are what
      the argument names, and absent again when it is the wildcard. */
  lemma DefaultFieldsArgument(args: Args, created: Created)
    requires FixnumOptions(args)
    ensures Initial(args, created).defFields.None? <==> args.NoArgs? || IsWildcard(args.defField)
    ensures !args.NoArgs? ==> Initial(args, created).defFields == FieldsOf(SpecOf(args.defField))
  {
  }

  /** The field set is empty unless a `fields` option other than the
      wildcard is given, and then it is the set that option names. */
  lemma FieldsOption(d: RValue, options: map<Key, RValue>, created: Created)
    requires FixnumOptions(TwoArgs(d, options))
    ensures FieldsKey !in options || options[FieldsKey].Nil? || IsWildcard(options[FieldsKey]) ==>
              Initial(TwoArgs(d, options), created).allFields == {}
    ensures FieldsKey in options && !options[FieldsKey].Nil? && !IsWildcard(options[FieldsKey]) ==>
              Some(Initial(TwoArgs(d, options), created).allFields) == FieldsOf(SpecOf(options[FieldsKey]))
  {
  }

  /** The standard analyzer is used exactly when no `analyzer` option is
      given; otherwise the given value is wrapped. */
  lemma AnalyzerOption(d: RValue, options: map<Key, RValue>, created: Created)
    requires FixnumOptions(TwoArgs(d, options))
    ensures Initial(TwoArgs(d, options), created).analyzer.StandardAnalyzer? <==>
              AnalyzerKey !in options || options[AnalyzerKey].Nil?
    ensures AnalyzerKey in options && !options[AnalyzerKey].Nil? ==>
              Initial(TwoArgs(d, options), created).analyzer == Wrapped(options[AnalyzerKey])
  {
  }

  /** A boolean option that is given sets its flag to false exactly when its
      value is false; one not given leaves the flag as created (true for
      `allow_any_fields` and `clean_string`). */
  lemma BooleanOptions(d: RValue, options: map<Key, RValue>, created: Created)
    requires FixnumOptions(TwoArgs(d, options))
    ensures var c := Initial(TwoArgs(d, options), created);
      && (HandleParseErrorsKey in options && !options[HandleParseErrorsKey].Nil? ==>
            (c.handleParseErrors <==> !options[HandleParseErrorsKey].False?))
      && (HandleParseErrorsKey !in options ==> c.handleParseErrors == created.handleParseErrors)
      && (AllowAnyFieldsKey in options && !options[AllowAnyFieldsKey].Nil? ==>
            (c.allowAnyFields <==> !options[AllowAnyFieldsKey].False?))
      && (AllowAnyFieldsKey !in options ==> c.allowAnyFields)
      && (WildLowerKey in options && !options[WildLowerKey].Nil? ==>
            (c.wildLower <==> !options[WildLowerKey].False?))
      && (WildLowerKey !in options ==> c.wildLower == created.wildLower)
      && (CleanStringKey in options && !options[CleanStringKey].Nil? ==>
            (c.cleanStr <==> !options[CleanStringKey].False?))
      && (CleanStringKey !in options ==> c.cleanStr)
  {
  }

  /** A given `default_slop` is the slop; otherwise it is the created one. */
  lemma DefaultSlop(d: RValue, options: map<Key, RValue>, created: Created)
    requires FixnumOptions(TwoArgs(d, options))
    ensures DefaultSlopKey in options && !options[DefaultSlopKey].Nil? ==>
              options[DefaultSlopKey] == Fixnum(Initial(TwoArgs(d, options), created).defSlop)
    ensures DefaultSlopKey !in options ==> Initial(TwoArgs(d, options), created).defSlop == created.defSlop
  {
  }

  /** An integer given as a field specification names one field, its
      decimal form. */
  lemma IntegerNamesItself(n: int32)
    ensures FieldsOf(SpecOf(Fixnum(n))) == Some({Decimal(n as int)})
  {
    SingleName(AsString(Fixnum(n)));
  }

  /** The decimal form of an integer is a non-empty run of digits after an
      optional minus sign. */
  lemma DecimalIsPlain(n: int)
    ensures Decimal(n) != []
    ensures forall c :: c in Decimal(n) ==> c == '-' || '0' <= c <= '9'
    ensures Decimal(n) != Wildcard && Separator !in Decimal(n) && '\0' !in Decimal(n)
  {
    var m: nat := if n < 0 then -n else n;
    var sign := if n < 0 then "-" else "";
    DigitsAreDigits(m);
    assert Decimal(n) == sign + Digits(m);
    forall c | c in Decimal(n)
      ensures c == '-' || '0' <= c <= '9'
    {
      assert c in sign || c in Digits(m);
    }
    assert '*' in Wildcard;
  }

  /** The decimal digits of a number are at least one character, each a digit. */
  lemma {:induction false} DigitsAreDigits(n: nat)
    ensures |Digits(n)| >= 1
    ensures forall c :: c in Digits(n) ==> '0' <= c <= '9'
  {
    if n >= 10 {
      DigitsAreDigits(n / 10);
    }
    assert "0123456789"[n % 10] in "0123456789";
  }

  /** The occurrence default: or_default is false exactly when MUST is given. */
  lemma OccurDefault(d: RValue, options: map<Key, RValue>, created: Created)
    requires FixnumOptions(TwoArgs(d, options))
    ensures !Initial(TwoArgs(d, options), created).orDefault <==>
              if OccurDefaultKey in options && !options[OccurDefaultKey].Nil?
              then options[OccurDefaultKey] == Fixnum(BcMust)
              else !created.orDefault
  {
  }
}
