/** The per-subcategory record validator of
    telegram-bot/src/services/dynamicValidator.ts. The validation library
    the source builds on is replaced by a tagged datatype of checkers; the
    parts that stay foreign (compiling and running a regular expression,
    recognising an ISO datetime, the wording of an error message) are
    functions the caller supplies. */
module DynamicValidator {
  import opened Wrappers

  /** A JSON value of a record field. */
  datatype Value = Num(x: real) | Str(s: string) | Bool(b: bool) | Null

  /** `ValidationRules`; an absent `validation_rules` is `NoRules`. */
  datatype ValidationRules = ValidationRules(
    min: Option<real>, max: Option<real>, regex: Option<string>, options: Option<seq<string>>)

  const NoRules := ValidationRules(None, None, None, None)

  /** `FieldDefinition`, reduced to what validation reads. `fieldType` is
      the tag as stored, so tags outside the six known ones can occur. */
  datatype FieldDefinition = FieldDefinition(
    fieldName: string, fieldType: string, isRequired: bool, validationRules: ValidationRules)

  /** The checker chosen for one field. */
  datatype Checker =
    | NumberCheck(min: Option<real>, max: Option<real>)
    | StringCheck(pattern: Option<string>)
    | DatetimeCheck
    | EnumCheck(options: seq<string>)
    | BooleanCheck
    | AnyCheck

  /** One entry of the object shape: a checker, possibly made optional. */
  datatype Slot = Slot(check: Checker, optional: bool)

  /** The object schema: its keys in insertion order and the entry of each. */
  datatype Schema = Schema(keys: seq<string>, shape: map<string, Slot>)

  datatype IssueCode =
    | Required
    | InvalidType(expected: string)
    | TooSmall(minimum: real)
    | TooBig(maximum: real)
    | PatternMismatch(pattern: string)
    | InvalidDatetime
    | InvalidEnumValue(options: seq<string>)

  /** One validation error: where, and what. */
  datatype Issue = Issue(path: seq<string>, code: IssueCode)

  /** The outcome of `safeParse`. */
  datatype ParseResult = Success(data: map<string, Value>) | Failure(issues: seq<Issue>)

  /** The foreign parts: whether a pattern compiles (`new RegExp` throws
      otherwise), whether it matches a string, whether a string is an ISO
      datetime, and the message text of an error. */
  datatype Foreign = Foreign(
    compiles: string -> bool,
    matches: (string, string) -> bool,
    isDatetime: string -> bool,
    message: IssueCode -> string)

  /** Building the schema throws when a `text` field's pattern does not
      compile. */
  datatype BuildError = InvalidPattern(pattern: string)

  /** The six tags the switch recognises. */
  predicate KnownType(tag: string) {
    tag == "number" || tag == "text" || tag == "date" || tag == "datetime"
    || tag == "select" || tag == "boolean"
  }

  /** The checker the switch selects for a field and refines by its rules. */
  function CheckerFor(f: FieldDefinition, ext: Foreign): Result<Checker, BuildError> {
    var rules := f.validationRules;
    if f.fieldType == "number" then Ok(NumberCheck(rules.min, rules.max))
    else if f.fieldType == "text" then
      if rules.regex.Some? && rules.regex.value != "" then
        if ext.compiles(rules.regex.value) then Ok(StringCheck(rules.regex))
        else Err(InvalidPattern(rules.regex.value))
      else Ok(StringCheck(None))
    else if f.fieldType == "date" || f.fieldType == "datetime" then Ok(DatetimeCheck)
    else if f.fieldType == "select" then
      if rules.options.Some? then Ok(EnumCheck(rules.options.value)) else Ok(StringCheck(None))
    else if f.fieldType == "boolean" then Ok(BooleanCheck)
    else Ok(AnyCheck)
  }

  /** The shape entry of a field: its checker, optional unless required. */
  function SlotFor(f: FieldDefinition, ext: Foreign): Result<Slot, BuildError> {
    match CheckerFor(f, ext)
    case Err(e) => Err(e)
    case Ok(c) => Ok(Slot(c, !f.isRequired))
  }

  /** Keys are distinct and are exactly the keys of the shape. */
  predicate Coherent(sc: Schema) {
    && (forall i, j :: 0 <= i < j < |sc.keys| ==> sc.keys[i] != sc.keys[j])
    && (forall k :: k in sc.shape ==> k in sc.keys)
    && (forall k :: k in sc.keys ==> k in sc.shape)
  }

  /** `schemaShape[name] = slot`: a new key goes last, an existing key keeps
      its place and gets the new entry. */
  function Put(sc: Schema, name: string, slot: Slot): (r: Schema)
    requires Coherent(sc)
    ensures Coherent(r)
  {
    if name in sc.shape then Schema(sc.keys, sc.shape[name := slot])
    else Schema(sc.keys + [name], sc.shape[name := slot])
  }

  /** The schema the loop of `buildDynamicSchema` builds from `fields`, or the
      error of the first field whose pattern does not compile. */
  function SchemaOf(fields: seq<FieldDefinition>, ext: Foreign): (r: Result<Schema, BuildError>)
    ensures r.Ok? ==> Coherent(r.value)
  {
    if fields == [] then Ok(Schema([], map[]))
    else
      match SchemaOf(fields[..|fields| - 1], ext)
      case Err(e) => Err(e)
      case Ok(sc) =>
        match SlotFor(fields[|fields| - 1], ext)
        case Err(e) => Err(e)
        case Ok(slot) => Ok(Put(sc, fields[|fields| - 1].fieldName, slot))
  }

  /** The definition that decides a field name: the last one with that name. */
  function LastDefinition(fields: seq<FieldDefinition>, name: string): Option<FieldDefinition> {
    if fields == [] then None
    else if fields[|fields| - 1].fieldName == name then Some(fields[|fields| - 1])
    else LastDefinition(fields[..|fields| - 1], name)
  }

  /** `LastDefinition` finds the definition at the greatest index carrying the
      name, and finds nothing exactly when no definition carries it. */
  lemma {:induction false} LastDefinitionIsLast(fields: seq<FieldDefinition>, name: string)
    ensures LastDefinition(fields, name).None? <==>
      (forall i :: 0 <= i < |fields| ==> fields[i].fieldName != name)
    ensures LastDefinition(fields, name).Some? ==>
      exists i :: 0 <= i < |fields| && fields[i] == LastDefinition(fields, name).value
        && fields[i].fieldName == name
        && (forall j :: i < j < |fields| ==> fields[j].fieldName != name)
  {
    if fields != [] {
      var n := |fields| - 1;
      LastDefinitionIsLast(fields[..n], name);
      if fields[n].fieldName != name {
        if LastDefinition(fields, name).Some? {
          var i :| 0 <= i < n && fields[..n][i] == LastDefinition(fields, name).value
            && fields[..n][i].fieldName == name
            && (forall j :: i < j < n ==> fields[..n][j].fieldName != name);
          assert fields[i] == fields[..n][i];
          assert forall j :: i < j < |fields| ==> fields[j].fieldName != name by {
            forall j | i < j < |fields| ensures fields[j].fieldName != name {
              if j < n { assert fields[j] == fields[..n][j]; }
            }
          }
        } else {
          forall i | 0 <= i < |fields| ensures fields[i].fieldName != name {
            if i < n { assert fields[i] == fields[..n][i]; }
          }
        }
      }
    }
  }

  /** The shape has an entry for exactly the declared names, and the entry of
      a name is the one its last definition builds. */
  lemma {:induction false} SchemaEntries(fields: seq<FieldDefinition>, ext: Foreign, name: string)
    requires SchemaOf(fields, ext).Ok?
    ensures var sc := SchemaOf(fields, ext).value;
      && (name in sc.shape <==> LastDefinition(fields, name).Some?)
      && (name in sc.shape ==> SlotFor(LastDefinition(fields, name).value, ext) == Ok(sc.shape[name]))
  {
    if fields != [] {
      SchemaEntries(fields[..|fields| - 1], ext, name);
    }
  }

  /** A build error in a prefix is the error of the whole build. */
  lemma {:induction false} SchemaErrorPersists(fields: seq<FieldDefinition>, i: nat, ext: Foreign)
    requires i <= |fields| && SchemaOf(fields[..i], ext).Err?
    ensures SchemaOf(fields, ext) == SchemaOf(fields[..i], ext)
  {
    if i < |fields| {
      var n := |fields| - 1;
      assert fields[..n][..i] == fields[..i];
      SchemaErrorPersists(fields[..n], i, ext);
    } else {
      assert fields[..i] == fields;
    }
  }

  /** `buildDynamicSchema`: one entry per field name, written in place into
      the shape dictionary; a later definition replaces an earlier one. */
  method BuildDynamicSchema(fields: seq<FieldDefinition>, ext: Foreign)
    returns (r: Result<Schema, BuildError>)
    ensures r == SchemaOf(fields, ext)
  {
    var keys: seq<string> := [];
    var schemaShape: map<string, Slot> := map[];
    for i := 0 to |fields|
      invariant SchemaOf(fields[..i], ext) == Ok(Schema(keys, schemaShape))
    {
      assert fields[..i + 1][..i] == fields[..i];
      var field := fields[i];
      var rules := field.validationRules;
      var validator: Checker;
      if field.fieldType == "number" {
        validator := NumberCheck(None, None);
        if rules.min.Some? {
          validator := NumberCheck(rules.min, validator.max);
        }
        if rules.max.Some? {
          validator := NumberCheck(validator.min, rules.max);
        }
      } else if field.fieldType == "text" {
        validator := StringCheck(None);
        if rules.regex.Some? && rules.regex.value != "" {
          if !ext.compiles(rules.regex.value) {
            SchemaErrorPersists(fields, i + 1, ext);
            return Err(InvalidPattern(rules.regex.value));
          }
          validator := StringCheck(rules.regex);
        }
      } else if field.fieldType == "date" || field.fieldType == "datetime" {
        validator := DatetimeCheck;
      } else if field.fieldType == "select" {
        if rules.options.Some? {
          validator := EnumCheck(rules.options.value);
        } else {
          validator := StringCheck(None);
        }
      } else if field.fieldType == "boolean" {
        validator := BooleanCheck;
      } else {
        validator := AnyCheck;
      }
      assert CheckerFor(field, ext) == Ok(validator);
      var slot := Slot(validator, !field.isRequired);
      if field.fieldName !in schemaShape {
        keys := keys + [field.fieldName];
      }
      schemaShape := schemaShape[field.fieldName := slot];
    }
    assert fields[..|fields|] == fields;
    return Ok(Schema(keys, schemaShape));
  }

  /** The errors one checker reports for a present value. */
  function CheckValue(c: Checker, v: Value, ext: Foreign): seq<IssueCode> {
    match c
    case NumberCheck(min, max) =>
      if !v.Num? then [InvalidType("number")]
      else
        var low := if min.Some? && v.x < min.value then [TooSmall(min.value)] else [];
        var high := if max.Some? && v.x > max.value then [TooBig(max.value)] else [];
        low + high
    case StringCheck(pattern) =>
      if !v.Str? then [InvalidType("string")]
      else if pattern.Some? && !ext.matches(pattern.value, v.s) then [PatternMismatch(pattern.value)]
      else []
    case DatetimeCheck =>
      if !v.Str? then [InvalidType("string")]
      else if ext.isDatetime(v.s) then []
      else [InvalidDatetime]
    case EnumCheck(options) =>
      if !v.Str? then [InvalidType("string")]
      else if v.s in options then []
      else [InvalidEnumValue(options)]
    case BooleanCheck =>
      if v.Bool? then [] else [InvalidType("boolean")]
    case AnyCheck => []
  }

  /** The errors one shape entry reports for a value that may be absent:
      an optional entry accepts absence, and so does the accept-anything
      checker. */
  function CheckSlot(slot: Slot, v: Option<Value>, ext: Foreign): seq<IssueCode> {
    match v
    case None => if slot.optional || slot.check.AnyCheck? then [] else [Required]
    case Some(x) => CheckValue(slot.check, x, ext)
  }

  function Get(data: map<string, Value>, k: string): Option<Value> {
    if k in data then Some(data[k]) else None
  }

  /** The errors of one key, each with the key as its path. */
  function Tag(k: string, codes: seq<IssueCode>): (r: seq<Issue>)
    ensures |r| == |codes|
    ensures forall i :: 0 <= i < |r| ==> r[i] == Issue([k], codes[i])
  {
    if codes == [] then [] else [Issue([k], codes[0])] + Tag(k, codes[1..])
  }

  /** The errors of the given keys, key by key in order. */
  function KeyIssues(keys: seq<string>, shape: map<string, Slot>, data: map<string, Value>, ext: Foreign)
    : seq<Issue>
    requires forall k :: k in keys ==> k in shape
  {
    if keys == [] then []
    else
      var k := keys[|keys| - 1];
      KeyIssues(keys[..|keys| - 1], shape, data, ext) + Tag(k, CheckSlot(shape[k], Get(data, k), ext))
  }

  /** `schema.safeParse(data)`: every key of the schema is checked and all
      errors are collected; on success the output keeps only the schema's
      keys. */
  function SafeParse(sc: Schema, data: map<string, Value>, ext: Foreign): ParseResult
    requires Coherent(sc)
  {
    var issues := KeyIssues(sc.keys, sc.shape, data, ext);
    if issues == [] then Success(Restrict(data, sc.shape))
    else Failure(issues)
  }

  /** The entries of `data` whose keys the schema declares. */
  function Restrict(data: map<string, Value>, shape: map<string, Slot>): (r: map<string, Value>)
    ensures forall k :: k in r <==> k in data && k in shape
    ensures forall k :: k in r ==> r[k] == data[k]
  {
    map k | k in shape && k in data :: data[k]
  }

  /** An entry under an undeclared key does not reach the output. */
  lemma RestrictIgnores(data: map<string, Value>, shape: map<string, Slot>, k: string, v: Value)
    requires k !in shape
    ensures Restrict(data[k := v], shape) == Restrict(data, shape)
  {
  }

  /** `validateRecordData`: build the schema, then parse the record with it;
      a build error is the exception the source lets escape. */
  function ValidateRecordData(fields: seq<FieldDefinition>, data: map<string, Value>, ext: Foreign)
    : Result<ParseResult, BuildError>
  {
    match SchemaOf(fields, ext)
    case Err(e) => Err(e)
    case Ok(sc) => Ok(SafeParse(sc, data, ext))
  }

  /** No error is reported for the given keys exactly when every one of them
      passes its entry, and every error carries a single key of them as its
      path. */
  lemma {:induction false} KeyIssuesMeaning(keys: seq<string>, shape: map<string, Slot>,
                                           data: map<string, Value>, ext: Foreign)
    requires forall k :: k in keys ==> k in shape
    ensures KeyIssues(keys, shape, data, ext) == [] <==>
      (forall k :: k in keys ==> CheckSlot(shape[k], Get(data, k), ext) == [])
    ensures forall issue :: issue in KeyIssues(keys, shape, data, ext) ==> |issue.path| == 1 && issue.path[0] in keys
  {
    if keys != [] {
      var n := |keys| - 1;
      KeyIssuesMeaning(keys[..n], shape, data, ext);
      assert forall k :: k in keys <==> k in keys[..n] || k == keys[n];
      var tagged := Tag(keys[n], CheckSlot(shape[keys[n]], Get(data, keys[n]), ext));
      forall issue | issue in KeyIssues(keys, shape, data, ext)
        ensures |issue.path| == 1 && issue.path[0] in keys
      {
        if issue !in KeyIssues(keys[..n], shape, data, ext) {
          assert issue in tagged;
        }
      }
    }
  }

  /** The field a definition describes accepts a value when the schema built
      from that definition alone reports nothing for it. */
  predicate FieldAccepts(f: FieldDefinition, v: Option<Value>, ext: Foreign) {
    SlotFor(f, ext).Ok? && CheckSlot(SlotFor(f, ext).value, v, ext) == []
  }

  /** Validation succeeds exactly when every declared field name passes the
      entry of its last definition; keys the definitions do not declare are
      never looked at. */
  lemma ValidationMeaning(fields: seq<FieldDefinition>, data: map<string, Value>, ext: Foreign)
    requires ValidateRecordData(fields, data, ext).Ok?
    ensures ValidateRecordData(fields, data, ext).value.Success? <==>
      (forall name :: LastDefinition(fields, name).Some? ==>
         FieldAccepts(LastDefinition(fields, name).value, Get(data, name), ext))
  {
    var sc := SchemaOf(fields, ext).value;
    KeyIssuesMeaning(sc.keys, sc.shape, data, ext);
    forall name
      ensures (name in sc.shape <==> LastDefinition(fields, name).Some?)
      ensures name in sc.shape ==> SlotFor(LastDefinition(fields, name).value, ext) == Ok(sc.shape[name])
    {
      SchemaEntries(fields, ext, name);
    }
  }

  /** On success the validated data is the record restricted to the declared
      names. */
  lemma ValidatedData(fields: seq<FieldDefinition>, data: map<string, Value>, ext: Foreign)
    requires ValidateRecordData(fields, data, ext).Ok?
    requires ValidateRecordData(fields, data, ext).value.Success?
    ensures var out := ValidateRecordData(fields, data, ext).value.data;
      forall k :: k in out <==> k in data && LastDefinition(fields, k).Some?
    ensures var out := ValidateRecordData(fields, data, ext).value.data;
      forall k :: k in out ==> out[k] == data[k]
  {
    forall name ensures name in SchemaOf(fields, ext).value.shape <==> LastDefinition(fields, name).Some? {
      SchemaEntries(fields, ext, name);
    }
  }

  /** A key no definition declares never changes the outcome. */
  lemma UndeclaredKeyIgnored(fields: seq<FieldDefinition>, data: map<string, Value>, k: string, v: Value,
                             ext: Foreign)
    requires LastDefinition(fields, k).None?
    ensures ValidateRecordData(fields, data[k := v], ext) == ValidateRecordData(fields, data, ext)
  {
    if SchemaOf(fields, ext).Ok? {
      var sc := SchemaOf(fields, ext).value;
      SchemaEntries(fields, ext, k);
      KeyIssuesIgnore(sc.keys, sc.shape, data, k, v, ext);
      RestrictIgnores(data, sc.shape, k, v);
    }
  }

  lemma {:induction false} KeyIssuesIgnore(keys: seq<string>, shape: map<string, Slot>,
                                          data: map<string, Value>, k: string, v: Value, ext: Foreign)
    requires forall key :: key in keys ==> key in shape
    requires k !in keys
    ensures KeyIssues(keys, shape, data[k := v], ext) == KeyIssues(keys, shape, data, ext)
  {
    if keys != [] {
      var n := |keys| - 1;
      KeyIssuesIgnore(keys[..n], shape, data, k, v, ext);
      assert Get(data[k := v], keys[n]) == Get(data, keys[n]);
    }
  }

  /** `path.join('.')` */
  function Join(path: seq<string>, sep: string): string {
    if path == [] then ""
    else if |path| == 1 then path[0]
    else path[0] + sep + Join(path[1..], sep)
  }

  function FormatIssue(issue: Issue, ext: Foreign): string {
    Join(issue.path, ".") + ": " + ext.message(issue.code)
  }

  /** `formatValidationErrors`: one line per error, in error order. */
  function FormatValidationErrors(issues: seq<Issue>, ext: Foreign): (lines: seq<string>)
    ensures |lines| == |issues|
    ensures forall i :: 0 <= i < |issues| ==> lines[i] == FormatIssue(issues[i], ext)
  {
    if issues == [] then [] else [FormatIssue(issues[0], ext)] + FormatValidationErrors(issues[1..], ext)
  }

  /** Every line reported for a failed validation reads "name: message",
      where name is a declared field name. */
  lemma ErrorLinesNameFields(fields: seq<FieldDefinition>, data: map<string, Value>, ext: Foreign)
    requires ValidateRecordData(fields, data, ext).Ok?
    requires ValidateRecordData(fields, data, ext).value.Failure?
    ensures var issues := ValidateRecordData(fields, data, ext).value.issues;
      forall i :: 0 <= i < |issues| ==>
        |issues[i].path| == 1 && LastDefinition(fields, issues[i].path[0]).Some? &&
        FormatValidationErrors(issues, ext)[i] == issues[i].path[0] + ": " + ext.message(issues[i].code)
  {
    var sc := SchemaOf(fields, ext).value;
    var issues := ValidateRecordData(fields, data, ext).value.issues;
    KeyIssuesMeaning(sc.keys, sc.shape, data, ext);
    forall i | 0 <= i < |issues|
      ensures |issues[i].path| == 1 && LastDefinition(fields, issues[i].path[0]).Some?
      ensures FormatValidationErrors(issues, ext)[i] == issues[i].path[0] + ": " + ext.message(issues[i].code)
    {
      assert issues[i] in issues;
      SchemaEntries(fields, ext, issues[i].path[0]);
    }
  }

  // Properties of single fields.

  /** A `number` field accepts numbers only, and exactly those within the
      bounds its rules define (a bound of 0 counts as defined). */
  lemma NumberField(f: FieldDefinition, v: Value, ext: Foreign)
    requires f.fieldType == "number"
    ensures FieldAccepts(f, Some(v), ext) <==>
      v.Num?
      && (f.validationRules.min.Some? ==> f.validationRules.min.value <= v.x)
      && (f.validationRules.max.Some? ==> v.x <= f.validationRules.max.value)
  {
  }

  /** A `select` field with options accepts exactly the listed strings;
      without options it accepts any string. */
  lemma SelectField(f: FieldDefinition, v: Value, ext: Foreign)
    requires f.fieldType == "select"
    ensures f.validationRules.options.Some? ==>
      (FieldAccepts(f, Some(v), ext) <==> v.Str? && v.s in f.validationRules.options.value)
    ensures f.validationRules.options.None? ==> (FieldAccepts(f, Some(v), ext) <==> v.Str?)
  {
  }

  /** `date` and `datetime` fields get the same checker: a string the
      datetime test accepts. */
  lemma DateIsDatetime(f: FieldDefinition, v: Value, ext: Foreign)
    requires f.fieldType == "date"
    ensures CheckerFor(f, ext) == CheckerFor(f.(fieldType := "datetime"), ext) == Ok(DatetimeCheck)
    ensures FieldAccepts(f, Some(v), ext) <==> v.Str? && ext.isDatetime(v.s)
  {
  }

  /** A `text` field accepts strings matching its pattern when it has a
      non-empty one, and any string otherwise. */
  lemma TextField(f: FieldDefinition, v: Value, ext: Foreign)
    requires f.fieldType == "text"
    ensures var re := f.validationRules.regex;
      FieldAccepts(f, Some(v), ext) <==>
        v.Str? && (re.Some? && re.value != "" ==> ext.compiles(re.value) && ext.matches(re.value, v.s))
  {
  }

  /** A `boolean` field accepts booleans only. */
  lemma BooleanField(f: FieldDefinition, v: Value, ext: Foreign)
    requires f.fieldType == "boolean"
    ensures FieldAccepts(f, Some(v), ext) <==> v.Bool?
  {
  }

  /** A field of an unrecognised type accepts every value, and absence too. */
  lemma UnknownTypeAcceptsAll(f: FieldDefinition, v: Option<Value>, ext: Foreign)
    requires !KnownType(f.fieldType)
    ensures FieldAccepts(f, v, ext)
  {
  }

  /** Absence is accepted by a field not marked required, and rejected by a
      required field of a known type. */
  lemma AbsentValue(f: FieldDefinition, ext: Foreign)
    requires SlotFor(f, ext).Ok?
    ensures !f.isRequired ==> FieldAccepts(f, None, ext)
    ensures f.isRequired && KnownType(f.fieldType) ==> !FieldAccepts(f, None, ext)
  {
  }
}
