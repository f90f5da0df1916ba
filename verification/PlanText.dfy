/**
 * The text of a compiled plan as the generators embed it: JSON with sorted keys and no spaces,
 * inside a Python string literal. The text is a list of pieces: what the writer itself puts
 * down, and the strings of the plan in quotes.
 */
module PlanText {
  import opened Prelude
  import opened Names
  import opened Contracts
  import opened Compiler
  import opened TextReplace

  // ---------------------------------------------------------------- pieces

  predicate NoCapital(text: string) {
    forall i :: 0 <= i < |text| ==> !('A' <= text[i] <= 'Z')
  }

  type CleanText = text: string | Clean(text) witness ""

  /** Letters, digits and underscores: no escape in JSON, none in a literal. */
  predicate PlainName(name: string) {
    forall i :: 0 <= i < |name| ==> MarkerChar(name[i]) || 'a' <= name[i] <= 'z' || '0' <= name[i] <= '9'
  }

  /** A field name of the plan's own models, or a digest. */
  type FieldName = text: string | NoCapital(text) && PlainName(text) witness ""

  /** Nothing in the text that JSON escapes. */
  predicate Unescaped(text: string) {
    forall i :: 0 <= i < |text| ==> text[i] as int >= 32 && text[i] != '"' && text[i] != '\\'
  }

  /** A value of one of the plan's enumerations. */
  type Token = text: string | NoCapital(text) && Unescaped(text) witness ""

  // The field names, in alphabetical order.
  const ARGUMENTS: FieldName := "arguments"
  const CLASS_MODULE: FieldName := "class_module"
  const CLASS_QUALNAME: FieldName := "class_qualname"
  const CLASS_TARGET: FieldName := "class_target"
  const CODEC: FieldName := "codec"
  const COMPILER_VERSION: FieldName := "compiler_version"
  const CONSTANT: FieldName := "constant"
  const CONSTRUCTOR_ARGUMENTS: FieldName := "constructor_arguments"
  const CONTRACT_SHA256: FieldName := "contract_sha256"
  const DEFAULT: FieldName := "default"
  const DESCRIPTION: FieldName := "description"
  const DISPLAY_NAME: FieldName := "display_name"
  const HAS_DEFAULT: FieldName := "has_default"
  const INPUT_METADATA: FieldName := "input_metadata"
  const KEY: FieldName := "key"
  const KIND: FieldName := "kind"
  const METADATA: FieldName := "metadata"
  const METADATA_KEY: FieldName := "metadata_key"
  const METHOD_NAME: FieldName := "method_name"
  const MODULE: FieldName := "module"
  const NONE_POLICY: FieldName := "none_policy"
  const OUTPUT: FieldName := "output"
  const OUTPUT_METADATA: FieldName := "output_metadata"
  const PARAMETER_KEY: FieldName := "parameter_key"
  const PARAMETERS: FieldName := "parameters"
  const PATH: FieldName := "path"
  const PAYLOAD: FieldName := "payload"
  const PYTHON_PATH: FieldName := "python_path"
  const QUALNAME: FieldName := "qualname"
  const REQUIRED: FieldName := "required"
  const SOURCE: FieldName := "source"
  const SOURCE_REF: FieldName := "source_ref"
  const SOURCE_REVISION: FieldName := "source_revision"
  const TARGET: FieldName := "target"
  const VALUE: FieldName := "value"

  datatype Piece = Mark(clean: CleanText) | Quoted(text: string)

  type Pieces = seq<Piece>

  function Separated(parts: seq<Pieces>): Pieces {
    if parts == [] then []
    else if |parts| == 1 then parts[0]
    else parts[0] + [Mark(",")] + Separated(parts[1..])
  }

  function Arr(parts: seq<Pieces>): Pieces {
    [Mark("[")] + Separated(parts) + [Mark("]")]
  }

  function Obj(fields: seq<Pieces>): Pieces {
    [Mark("{")] + Separated(fields) + [Mark("}")]
  }

  function Field(name: FieldName, value: Pieces): Pieces {
    var mark := "\"" + name + "\":";
    assert Clean(mark) by { assert mark[|mark| - 1] == ':'; }
    [Mark(mark)] + value
  }

  function Word(token: Token): Pieces {
    var mark := "\"" + token + "\"";
    assert Clean(mark) by { assert mark[|mark| - 1] == '"'; }
    [Mark(mark)]
  }

  function Entry(key: string, value: Pieces): Pieces {
    [Quoted(key), Mark(":")] + value
  }

  function MapPieces<T>(members: map<string, T>, write: T -> Pieces): Pieces {
    var keys := Sorted(members.Keys);
    Obj(seq(|keys|, i requires 0 <= i < |keys| => Entry(keys[i], write(members[keys[i]]))))
  }

  function Texts(texts: seq<string>): Pieces {
    Arr(seq(|texts|, i requires 0 <= i < |texts| => [Quoted(texts[i])]))
  }

  // ---------------------------------------------------------------- values, bindings, the plan

  /** The characters of the numerals that json.dumps writes for finite numbers. */
  predicate NumeralChar(c: char) {
    '0' <= c <= '9' || c == '-' || c == '+' || c == '.' || c == 'e'
  }

  predicate IsNumeral(text: string) {
    text != "" && forall i :: 0 <= i < |text| ==> NumeralChar(text[i])
  }

  type NumeralText = text: string | IsNumeral(text) witness "0"

  lemma NumeralsAreClean(text: NumeralText)
    ensures Clean(text)
  {
  }

  /** How numbers and digests are written, and which characters Python prints as they are. */
  datatype Form = Form(numeral: (real, bool) -> NumeralText, hex: Digest -> FieldName, printable: char -> bool)

  function Null(): Pieces {
    [Mark("null")]
  }

  function Truth(b: bool): Pieces {
    [Mark(if b then "true" else "false")]
  }

  function MaybeText(text: Option<string>): Pieces {
    if text.Some? then [Quoted(text.value)] else Null()
  }

  /** A JSON value; the others do not occur in contracts. */
  function ValuePieces(form: Form, v: Value): Pieces {
    match v
    case Bool(b) => Truth(b)
    case Number(n, floating) => [Mark(form.numeral(n, floating))]
    case Text(text) => [Quoted(text)]
    case List(elements) =>
      Arr(seq(|elements|, i requires 0 <= i < |elements| => ValuePieces(form, elements[i])))
    case Dict(members) =>
      var keys := Sorted(members.Keys);
      Obj(seq(|keys|, i requires 0 <= i < |keys| => Entry(keys[i], ValuePieces(form, members[keys[i]]))))
    case _ => Null()
  }

  function CodecPieces(codec: Codec): Pieces {
    match codec
    case BytesCodec => Word("bytes")
    case TextCodec => Word("text")
    case JsonCodec => Word("json")
  }

  function SourcePieces(source: Source): Pieces {
    match source
    case InputPayload => Word("input.payload")
    case InputMetadata => Word("input.metadata")
    case OperatorParameter => Word("operator.parameter")
    case Constant => Word("constant")
  }

  function DefaultPieces(form: Form, b: CompiledBinding): seq<Pieces> {
    if b.source.OperatorParameter? then
      [Field(DEFAULT, ValuePieces(form, b.default)), Field(HAS_DEFAULT, Truth(b.hasDefault))]
    else []
  }

  function BindingPieces(form: Form, b: CompiledBinding): Pieces {
    Obj([Field(CODEC, CodecPieces(b.codec)), Field(CONSTANT, ValuePieces(form, b.constant))]
        + DefaultPieces(form, b)
        + [Field(METADATA_KEY, MaybeText(b.metadataKey)), Field(PARAMETER_KEY, MaybeText(b.parameterKey)),
           Field(REQUIRED, Truth(b.required)), Field(SOURCE, SourcePieces(b.source))])
  }

  function BindingsPieces(form: Form, bindings: CompiledBindings): Pieces {
    MapPieces(bindings, b => BindingPieces(form, b))
  }

  function PartPieces(form: Form, part: Part): Pieces {
    match part
    case Key(name) => [Quoted(name)]
    case Index(index) => [Mark(form.numeral(index as real, false))]
  }

  function OutputSourcePieces(source: OutputSource): Pieces {
    match source
    case Return => Word("return")
    case ReturnPath => Word("return.path")
    case OutputConstant => Word("constant")
  }

  function OutputValuePieces(form: Form, v: OutputValue): Pieces {
    Obj([Field(CODEC, CodecPieces(v.codec)),
         Field(PATH, Arr(seq(|v.path|, i requires 0 <= i < |v.path| => PartPieces(form, v.path[i])))),
         Field(SOURCE, OutputSourcePieces(v.source)), Field(VALUE, ValuePieces(form, v.value))])
  }

  function PolicyPieces(policy: NonePolicy): Pieces {
    if policy.KeepOriginal? then Word("keep-original") else Word("empty")
  }

  function OutputPieces(form: Form, output: Output): Pieces {
    Obj([Field(METADATA, MapPieces(output.metadata, v => OutputValuePieces(form, v))),
         Field(NONE_POLICY, PolicyPieces(output.nonePolicy)),
         Field(PAYLOAD, OutputValuePieces(form, output.payload))])
  }

  function ParameterPieces(form: Form, p: CompiledParameter): Pieces {
    Obj([Field(DEFAULT, ValuePieces(form, p.default)), Field(DESCRIPTION, [Quoted(p.description)]),
         Field(DISPLAY_NAME, [Quoted(p.displayName)]), Field(HAS_DEFAULT, Truth(p.hasDefault)),
         Field(KEY, [Quoted(p.key)]), Field(REQUIRED, Truth(p.required))])
  }

  function ParametersPieces(form: Form, parameters: seq<CompiledParameter>): Pieces {
    Arr(seq(|parameters|, i requires 0 <= i < |parameters| => ParameterPieces(form, parameters[i])))
  }

  function KindPieces(kind: CallableKind): Pieces {
    match kind
    case Function => Word("function")
    case InstanceMethod => Word("instance-method")
    case StaticMethod => Word("static-method")
    case ClassMethod => Word("class-method")
  }

  function ClassPieces(class_: Option<(string, string)>): seq<Pieces> {
    if class_.Some? then
      [Field(CLASS_MODULE, [Quoted(class_.value.0)]), Field(CLASS_QUALNAME, [Quoted(class_.value.1)])]
    else []
  }

  function TargetPieces(target: Target): Pieces {
    Obj(ClassPieces(target.class_)
        + [Field(CLASS_TARGET, MaybeText(target.classTarget)), Field(KIND, KindPieces(target.kind)),
           Field(METHOD_NAME, MaybeText(target.methodName)), Field(MODULE, [Quoted(target.pyModule)]),
           Field(QUALNAME, [Quoted(target.qualname)])])
  }

  function DigestPieces(form: Form, digest: Digest): Pieces {
    var mark := "\"" + form.hex(digest) + "\"";
    assert Clean(mark) by { assert mark[|mark| - 1] == '"'; }
    [Mark(mark)]
  }

  /** What follows the argument bindings, which come first in key order. */
  function RestPieces(form: Form, plan: Plan): seq<Pieces> {
    [Field(COMPILER_VERSION, Word("virtual-direct-v1")),
     Field(CONSTRUCTOR_ARGUMENTS, BindingsPieces(form, plan.constructorArguments)),
     Field(CONTRACT_SHA256, DigestPieces(form, plan.digest)),
     Field(INPUT_METADATA, Texts(plan.inputMetadata)),
     Field(OUTPUT, OutputPieces(form, plan.output)),
     Field(OUTPUT_METADATA, Texts(plan.outputMetadata)),
     Field(PARAMETERS, ParametersPieces(form, plan.parameters)),
     Field(PYTHON_PATH, [Quoted(plan.origin.pythonPath)]),
     Field(SOURCE_REF, MaybeText(plan.origin.ref)),
     Field(SOURCE_REVISION, [Quoted(plan.origin.revision)]),
     Field(TARGET, TargetPieces(plan.target))]
  }

  function PlanPieces(form: Form, plan: Plan): Pieces {
    Obj([Field(ARGUMENTS, BindingsPieces(form, plan.arguments))] + RestPieces(form, plan))
  }

  // ---------------------------------------------------------------- the text

  function HexDigit(n: nat): char
    requires n < 16
  {
    if n < 10 then '0' + n as char else 'a' + (n - 10) as char
  }

  function Hex(n: nat, digits: nat): string {
    if digits == 0 then "" else Hex(n / 16, digits - 1) + [HexDigit(n % 16)]
  }

  /** Escapes of json.dumps with ensure_ascii off. */
  function JsonEscape(c: char): string {
    if c == '"' then "\\\""
    else if c == '\\' then "\\\\"
    else if c == '\n' then "\\n"
    else if c == '\r' then "\\r"
    else if c == '\t' then "\\t"
    else if c as int == 8 then "\\b"
    else if c as int == 12 then "\\f"
    else if c as int < 32 then "\\u" + Hex(c as int, 4)
    else [c]
  }

  function Written(p: Piece): string {
    if p.Mark? then p.clean else "\"" + Encode(JsonEscape, p.text) + "\""
  }

  function Write(pieces: Pieces): string {
    if pieces == [] then "" else Written(pieces[0]) + Write(pieces[1..])
  }

  /** Escapes of repr between the given quotes. */
  function ReprEscape(printable: char -> bool, quote: char): char -> string {
    (c: char) =>
      if c == quote || c == '\\' then ['\\', c]
      else if c == '\n' then "\\n"
      else if c == '\r' then "\\r"
      else if c == '\t' then "\\t"
      else if c as int < 32 || c as int == 127 then "\\x" + Hex(c as int, 2)
      else if c as int < 127 || printable(c) then [c]
      else if c as int < 256 then "\\x" + Hex(c as int, 2)
      else if c as int < 65536 then "\\u" + Hex(c as int, 4)
      else "\\U" + Hex(c as int, 8)
  }

  function QuoteFor(text: string): char {
    if '\'' in text && '"' !in text then '"' else '\''
  }

  /** repr of a string. */
  function Repr(form: Form, text: string): string {
    var quote := QuoteFor(text);
    [quote] + Encode(ReprEscape(form.printable, quote), text) + [quote]
  }

  /** What stands for the plan in a generated module. */
  function PlanLiteral(form: Form, plan: Plan): string {
    Repr(form, Write(PlanPieces(form, plan)))
  }

  /** What stands for the property list in a native module. */
  function PropertiesLiteral(form: Form, parameters: seq<CompiledParameter>): string {
    Repr(form, Write(ParametersPieces(form, parameters)))
  }

  // ---------------------------------------------------------------- escapes are faithful

  lemma {:induction false} HexIsPlain(n: nat, digits: nat)
    ensures '_' !in Hex(n, digits)
  {
    if digits > 0 { HexIsPlain(n / 16, digits - 1); }
  }

  lemma JsonFaithful()
    ensures Faithful(JsonEscape)
  {
    hide JsonEscape, MarkerChar;
    forall c ensures
      if MarkerChar(c) then JsonEscape(c) == [c]
      else JsonEscape(c) != "" && !MarkerChar(JsonEscape(c)[0]) && '_' !in JsonEscape(c)
    {
      JsonEscapes(c);
    }
  }

  lemma JsonEscapes(c: char)
    ensures MarkerChar(c) ==> JsonEscape(c) == [c]
    ensures !MarkerChar(c) ==> JsonEscape(c) != "" && !MarkerChar(JsonEscape(c)[0]) && '_' !in JsonEscape(c)
  {
    hide Hex;
    HexIsPlain(c as int, 4);
  }

  lemma ReprFaithful(printable: char -> bool, quote: char)
    requires IsQuote(quote)
    ensures Faithful(ReprEscape(printable, quote))
  {
    forall c ensures
      var esc := ReprEscape(printable, quote);
      if MarkerChar(c) then esc(c) == [c] else esc(c) != "" && !MarkerChar(esc(c)[0]) && '_' !in esc(c)
    {
      HexIsPlain(c as int, 2);
      HexIsPlain(c as int, 4);
      HexIsPlain(c as int, 8);
    }
  }

  // ---------------------------------------------------------------- markers in written pieces

  /** None of the quoted strings holds the marker. */
  predicate Free(pieces: Pieces, m: string)
    requires m != ""
  {
    forall i :: 0 <= i < |pieces| && pieces[i].Quoted? ==> !Occurs(pieces[i].text, m)
  }

  function Substituted(p: Piece, m: string, by_: string): Piece
    requires m != ""
  {
    if p.Mark? then p else Quoted(Replace(p.text, m, by_))
  }

  function Subst(pieces: Pieces, m: string, by_: string): (r: Pieces)
    requires m != ""
    ensures |r| == |pieces| && forall i :: 0 <= i < |r| ==> r[i] == Substituted(pieces[i], m, by_)
  {
    seq(|pieces|, i requires 0 <= i < |pieces| => Substituted(pieces[i], m, by_))
  }

  lemma QuotedReplace(text: string, rest: string, m: string, by_: string)
    requires Marker(m) && Encode(JsonEscape, by_) == by_
    ensures var (before, after) := (Encode(JsonEscape, text), Encode(JsonEscape, Replace(text, m, by_)));
      Replace("\"" + before + "\"" + rest, m, by_) == "\"" + after + "\"" + Replace(rest, m, by_)
  {
    JsonFaithful();
    EncodeReplace(JsonEscape, text, m, by_);
    Around("\"", Encode(JsonEscape, text), "\"", rest, m, by_);
  }

  /** Between quotes. */
  lemma Around(q: string, inner: string, q': string, rest: string, m: string, by_: string)
    requires Marker(m) && |q| == 1 && |q'| == 1 && !MarkerChar(q[0]) && !MarkerChar(q'[0])
    ensures Replace(q + inner + q' + rest, m, by_) == q + Replace(inner, m, by_) + q' + Replace(rest, m, by_)
    ensures Occurs(q + inner + q' + rest, m) <==> Occurs(inner, m) || Occurs(rest, m)
  {
    assert m != "";
    hide Replace, Occurs, Marker;
    assert q + inner + q' + rest == q + (inner + (q' + rest));
    NoMarkerIn(q, m, by_);
    NoMarkerIn(q', m, by_);
    ReplaceJoin(q, inner + (q' + rest), m, by_);
    ReplaceJoin(inner, q' + rest, m, by_);
    ReplaceJoin(q', rest, m, by_);
    OccursJoin(q, inner + (q' + rest), m);
    OccursJoin(inner, q' + rest, m);
    OccursJoin(q', rest, m);
    var (i, r) := (Replace(inner, m, by_), Replace(rest, m, by_));
    assert q + (i + (q' + r)) == q + i + q' + r;
  }

  lemma NoMarkerIn(q: string, m: string, by_: string)
    requires Marker(m) && |q| == 1
    ensures Replace(q, m, by_) == q && !Occurs(q, m)
  {
  }

  /** Replacing in a written text is replacing in its quoted strings. */
  lemma {:induction false} WriteReplace(pieces: Pieces, m: string, by_: string)
    requires Marker(m) && Encode(JsonEscape, by_) == by_
    ensures Replace(Write(pieces), m, by_) == Write(Subst(pieces, m, by_))
    decreases |pieces|
  {
    if pieces != [] {
      var (p, rest) := (pieces[0], pieces[1..]);
      WriteReplace(rest, m, by_);
      assert Subst(pieces, m, by_)[1..] == Subst(rest, m, by_);
      if p.Mark? { SkipClean(p.clean, Write(rest), m, by_); } else { QuotedReplace(p.text, Write(rest), m, by_); }
    }
  }

  /** A written text holds a marker exactly when one of its quoted strings does. */
  lemma {:induction false} WriteOccurs(pieces: Pieces, m: string)
    requires Marker(m)
    ensures Occurs(Write(pieces), m) <==> !Free(pieces, m)
    decreases |pieces|
  {
    if pieces != [] {
      var (p, rest) := (pieces[0], pieces[1..]);
      WriteOccurs(rest, m);
      FreeStep(pieces, m);
      if p.Mark? {
        SkipClean(p.clean, Write(rest), m, "");
      } else {
        JsonFaithful();
        EncodeOccurs(JsonEscape, p.text, m);
        Around("\"", Encode(JsonEscape, p.text), "\"", Write(rest), m, "");
      }
    }
  }

  lemma FreeStep(pieces: Pieces, m: string)
    requires m != "" && pieces != []
    ensures Free(pieces, m) <==> (pieces[0].Quoted? ==> !Occurs(pieces[0].text, m)) && Free(pieces[1..], m)
  {
    var rest := pieces[1..];
    if Free(pieces, m) {
      assert forall i :: 0 <= i < |rest| ==> rest[i] == pieces[i + 1];
    }
    if Free(rest, m) {
      assert forall i :: 1 <= i < |pieces| ==> pieces[i] == rest[i - 1];
    }
  }

  /** A literal holds a marker exactly when one of the strings written in it does. */
  lemma LiteralOccurs(form: Form, pieces: Pieces, m: string)
    requires Marker(m)
    ensures Occurs(Repr(form, Write(pieces)), m) <==> !Free(pieces, m)
  {
    var text := Write(pieces);
    var quote := QuoteFor(text);
    WriteOccurs(pieces, m);
    ReprFaithful(form.printable, quote);
    EncodeOccurs(ReprEscape(form.printable, quote), text, m);
    Around([quote], Encode(ReprEscape(form.printable, quote), text), [quote], "", m, "");
    assert Repr(form, text) + "" == Repr(form, text);
  }

  lemma PlainChar(printable: char -> bool, quote: char, c: char)
    requires IsQuote(quote) && (MarkerChar(c) || 'a' <= c <= 'z' || '0' <= c <= '9')
    ensures JsonEscape(c) == [c] && ReprEscape(printable, quote)(c) == [c]
  {
  }

  lemma {:induction false} PlainEncodes(printable: char -> bool, quote: char, name: string)
    requires PlainName(name) && IsQuote(quote)
    ensures Encode(JsonEscape, name) == name && Encode(ReprEscape(printable, quote), name) == name
  {
    hide JsonEscape, ReprEscape;
    if name != "" {
      PlainChar(printable, quote, name[0]);
      PlainEncodes(printable, quote, name[1..]);
      assert name == [name[0]] + name[1..];
    }
  }

  /** A plain name replaces a marker inside every string of the literal. */
  lemma LiteralReplace(form: Form, pieces: Pieces, m: string, name: string)
    requires Marker(m) && PlainName(name) && '"' in Write(pieces) && '"' in Write(Subst(pieces, m, name))
    ensures Replace(Repr(form, Write(pieces)), m, name) == Repr(form, Write(Subst(pieces, m, name)))
  {
    var (text, esc) := (Write(pieces), ReprEscape(form.printable, '\''));
    PlainEncodes(form.printable, '\'', name);
    WriteReplace(pieces, m, name);
    ReprFaithful(form.printable, '\'');
    EncodeReplace(esc, text, m, name);
    Around("'", Encode(esc, text), "'", "", m, name);
    assert Repr(form, text) + "" == Repr(form, text);
    assert Replace("", m, name) == "";
  }
}
