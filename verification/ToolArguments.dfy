/**
 The reading of tool-call arguments (crates/openalpaca_llm/src/tool_arguments.rs): always an object,
 and never `{}` for a text that does not say so.
 */
module ToolArguments {
  import opened Wrappers

  datatype Value =
    | Null
    | Bool(flag: bool)
    | Number(number: Num)
    | String(text: string)
    | Array(items: seq<Value>)
    | Object(members: map<string, Value>)

  /** A number a `u64` can hold, or any other as it is written. */
  datatype Num = Whole(n: nat) | Other(digits: string)

  /** The JSON library: `parse` gives a value or its message, `write` a text. */
  datatype Codec = Codec(parse: string -> Result<Value, string>, write: Value -> string)

  /** A char of `char::is_whitespace` (the Unicode property White_Space). */
  predicate IsWhite(c: char) {
    var n := c as int;
    9 <= n <= 13 || n in {0x20, 0x85, 0xA0, 0x1680, 0x2028, 0x2029, 0x202F, 0x205F, 0x3000} || 0x2000 <= n <= 0x200A
  }

  /** A char of `char::is_control` (the Unicode category Cc). */
  predicate IsControl(c: char) {
    c as int < 0x20 || 0x7F <= c as int < 0xA0
  }

  predicate Blank(s: string) {
    forall k | 0 <= k < |s| :: IsWhite(s[k])
  }

  const BOM: char := '\U{FEFF}'

  /** What the reading relies on: printing can be parsed back, and neither blanks nor a byte-order mark
      can start a text that is JSON and hide it. */
  ghost predicate Lawful(codec: Codec) {
    && (forall v :: codec.parse(codec.write(v)) == Ok(v))
    && (forall s :: Blank(s) ==> codec.parse(s).Err?)
    && (forall s :: s != "" && s[0] == BOM ==> codec.parse(s).Err?)
  }

  // ---------------------------------------------------------------- the stand-in

  datatype Unreadable = Unreadable(bytes: nat, problem: string) {

    /** The one object that stands for arguments that could not be read. */
    function ToArguments(): Value {
      Object(map[KEY := Object(map["bytes" := Number(Whole(bytes)), "problem" := String(problem)])])
    }
  }

  const KEY := "__openalpaca_unreadable_arguments"

  function Member(v: Value, key: string): Option<Value> {
    if v.Object? && key in v.members then Some(v.members[key]) else None
  }

  function Of(arguments: Value): Option<Unreadable> {
    if !arguments.Object? || |arguments.members| != 1 || KEY !in arguments.members then None
    else
      var inner := arguments.members[KEY];
      match (Member(inner, "bytes"), Member(inner, "problem"))
      case (Some(Number(Whole(n))), Some(String(s))) => if n < 0x1_0000_0000_0000_0000 then Some(Unreadable(n, s)) else None
      case _ => None
  }

  /** The registry recognises every stand-in, with what it stands for. */
  lemma StandInIsRecognised(u: Unreadable)
    requires u.bytes < 0x1_0000_0000_0000_0000
    ensures Of(u.ToArguments()) == Some(u)
  {
    var inner := Object(map["bytes" := Number(Whole(u.bytes)), "problem" := String(u.problem)]);
    assert "bytes" != "problem" by { assert |"bytes"| != |"problem"|; }
    assert u.ToArguments().members[KEY] == inner;
    assert Member(inner, "bytes") == Some(Number(Whole(u.bytes)));
    assert Member(inner, "problem") == Some(String(u.problem));
  }

  // ---------------------------------------------------------------- reading

  /** How many bytes a text takes in UTF-8. */
  function Bytes(s: string): nat {
    if s == "" then 0
    else
      var n := s[0] as int;
      (if n < 0x80 then 1 else if n < 0x800 then 2 else if n < 0x1_0000 then 3 else 4) + Bytes(s[1..])
  }

  function StripBom(s: string): string {
    if s != "" && s[0] == BOM then s[1..] else s
  }

  /** The parser's message, fit for a shell tool's argument. */
  function Plain(message: string): (r: string)
    ensures |r| == |message| && forall k | 0 <= k < |r| :: r[k] != '`' && !IsControl(r[k])
  {
    seq(|message|, k requires 0 <= k < |message| =>
      if message[k] == '`' then '\'' else if IsControl(message[k]) then ' ' else message[k])
  }

  const HOLDS_NO_OBJECT := "a JSON string that does not hold a JSON object"
  const AN_ARRAY := "a JSON array, not an object"
  const A_NUMBER := "a JSON number, not an object"
  const A_BOOLEAN := "a JSON boolean, not an object"
  const NOT_JSON := "not valid JSON ("

  function AsArguments(codec: Codec, value: Value): Result<Value, string> {
    match value
    case Null => Ok(Object(map[]))
    case Object(_) => Ok(value)
    case String(text) =>
      var r := codec.parse(text);
      if r.Ok? && r.value.Object? then Ok(r.value) else Err(HOLDS_NO_OBJECT)
    case Array(_) => Err(AN_ARRAY)
    case Number(_) => Err(A_NUMBER)
    case Bool(_) => Err(A_BOOLEAN)
  }

  function Settle(bytes: nat, read: Result<Value, string>): Value {
    match read
    case Ok(arguments) => arguments
    case Err(problem) => Unreadable(bytes, problem).ToArguments()
  }

  function ReadToolArguments(codec: Codec, text: string): Value {
    var text := StripBom(text);
    if Blank(text) then Object(map[])
    else
      var read := match codec.parse(text)
                  case Ok(value) => AsArguments(codec, value)
                  case Err(error) => Err(NOT_JSON + Plain(error) + ")");
      Settle(Bytes(text), read)
  }

  /** Whatever was sent, a call carries an object. */
  lemma AlwaysAnObject(codec: Codec, text: string)
    ensures ReadToolArguments(codec, text).Object?
  {
  }

  /** What a text says its arguments are, where it says so: nothing, `null`, an object, or a string of one. */
  function Says(codec: Codec, text: string): Option<map<string, Value>> {
    if Blank(text) then Some(map[])
    else match codec.parse(text)
      case Ok(Null) => Some(map[])
      case Ok(Object(members)) => Some(members)
      case Ok(String(inner)) =>
        (match codec.parse(inner)
         case Ok(Object(members)) => Some(members)
         case _ => None)
      case _ => None
  }

  lemma BecomesStandIn(codec: Codec, text: string) returns (u: Unreadable)
    requires Says(codec, StripBom(text)).None?
    ensures u.bytes == Bytes(StripBom(text)) && ReadToolArguments(codec, text) == u.ToArguments()
  {
    var t := StripBom(text);
    match codec.parse(t)
    case Ok(value) => u := Unreadable(Bytes(t), AsArguments(codec, value).error);
    case Err(error) => u := Unreadable(Bytes(t), NOT_JSON + Plain(error) + ")");
  }

  /** Past one byte-order mark, a text that says nothing readable becomes the stand-in for its own length, which the
      registry refuses; in particular, it never becomes the empty object. One that says its arguments is read so. */
  lemma ReadOrRefused(codec: Codec, text: string)
    requires Bytes(StripBom(text)) < 0x1_0000_0000_0000_0000
    ensures var r := ReadToolArguments(codec, text);
            match Says(codec, StripBom(text))
            case Some(members) => r == Object(members)
            case None => Of(r).Some? && Of(r).value.bytes == Bytes(StripBom(text)) && r != Object(map[])
  {
    if Says(codec, StripBom(text)).None? {
      var u := BecomesStandIn(codec, text);
      StandInIsRecognised(u);
    }
  }

  /** Of two byte-order marks one is left, and then nothing is readable. */
  lemma SecondBomIsRefused(codec: Codec, text: string)
    requires Lawful(codec) && Bytes([BOM] + text) < 0x1_0000_0000_0000_0000
    ensures Of(ReadToolArguments(codec, [BOM, BOM] + text)).Some?
  {
    var t := [BOM] + text;
    assert StripBom([BOM, BOM] + text) == t && t[0] == BOM && !IsWhite(BOM);
    ReadOrRefused(codec, [BOM, BOM] + text);
  }

  /** One byte-order mark in front changes nothing. */
  lemma BomIsDropped(codec: Codec, text: string)
    requires StripBom(text) == text
    ensures ReadToolArguments(codec, [BOM] + text) == ReadToolArguments(codec, text)
  {
    assert ([BOM] + text)[1..] == text;
  }

  /** Printed arguments are read back as they were exactly when they are an object. */
  lemma ReadsBack(codec: Codec, v: Value)
    requires Lawful(codec)
    ensures ReadToolArguments(codec, codec.write(v)) == v <==> v.Object?
  {
    var text := codec.write(v);
    assert codec.parse(text) == Ok(v);
    assert StripBom(text) == text && !Blank(text);
    AlwaysAnObject(codec, text);
  }

  /** Reading is settled after one pass: what was read, printed and read again, stays. */
  lemma SecondPassChangesNothing(codec: Codec, text: string)
    requires Lawful(codec)
    ensures var r := ReadToolArguments(codec, text); ReadToolArguments(codec, codec.write(r)) == r
  {
    AlwaysAnObject(codec, text);
    ReadsBack(codec, ReadToolArguments(codec, text));
  }
}
