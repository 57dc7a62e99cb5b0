/**
  networking/messages.py: the control messages exchanged with the robot
  controller. A message is a JSON object whose 'type' selects a schema of
  required fields; `parse_message` validates a decoded message against its
  schema and `create_message` builds the object of an outgoing message.
  `json.loads` and `json.dumps` are not modelled: parsing starts from the
  decoded value (or the decoder's error text), and the serialiser that
  turns the created dictionary into text is a parameter.
*/
module Messages {

  import opened Common
  import opened Values

  const TypeStartStream := "start"
  const TypeStopStream := "stop"
  const TypeError := "error"
  const TypeResults := "results"

  const FieldType := "type"
  const FieldPort := "port"
  const FieldHost := "host"
  const FieldIso := "iso"
  const FieldSs := "shutterspeed"
  const FieldError := "message"
  const FieldCorners := "corners"

  /** The Python classes a decoded value can have, and `type` itself. */
  datatype PyType = NoneType | BoolType | IntType | FloatType | StrType | ListType | DictType | TypeType

  /** `cls.__name__`. */
  function TypeName(t: PyType): string
  {
    match t
    case NoneType => "NoneType"
    case BoolType => "bool"
    case IntType => "int"
    case FloatType => "float"
    case StrType => "str"
    case ListType => "list"
    case DictType => "dict"
    case TypeType => "type"
  }

  /** `type(v)` for a decoded JSON value (a JSON `true` is a `bool`, not an `int`). */
  function TypeOf(v: Value): PyType
  {
    match v
    case VNull => NoneType
    case VBool(_) => BoolType
    case VInt(_) => IntType
    case VFloat(_, _) => FloatType
    case VStr(_) => StrType
    case VList(_) => ListType
    case VDict(_) => DictType
  }

  /** `type(cls)` for a class `cls`: every class is an instance of `type`. */
  function TypeOfClass(cls: PyType): PyType
  {
    TypeType
  }

  /** A schema: the required fields and their classes, in insertion order. */
  type Schema = seq<(string, PyType)>

  /** `MESSAGES[t]`, when `t` is one of the four message types. */
  function MessageSchema(t: string): (s: Option<Schema>)
    ensures s.Some? <==> t in {TypeStartStream, TypeStopStream, TypeError, TypeResults}
  {
    if t == TypeStartStream then
      Some([(FieldPort, IntType), (FieldHost, StrType), (FieldIso, IntType), (FieldSs, IntType)])
    else if t == TypeStopStream then Some([])
    else if t == TypeError then Some([(FieldError, StrType)])
    else if t == TypeResults then Some([(FieldCorners, ListType)])
    else None
  }

  /** The exceptions other than `ValueError` that parsing and dispatch can raise. */
  datatype PyError = IndexError | TypeErr | KeyError

  /** What `json.loads` gave: a value, or a decoding error with its text. */
  datatype Loaded = Decoded(value: Value) | NotJson(error: string)

  /** `parse_message` returns the message, raises `ValueError(text)`, or raises another error. */
  datatype ParseOutcome = Parsed(message: Value) | ValueError(text: string) | Raised(error: PyError)

  const NoTypeText := "Message does not have a type field"
  const UnknownTypeText := "Message type is not understood"

  function MissingFieldText(field: string): string
  {
    "Message does not contain required field " + field
  }

  /** The intended type error: "Field f is of type X and not of type Y". */
  function FieldTypeText(field: string, got: PyType, wanted: PyType): string
  {
    "Field " + field + " is of type " + TypeName(got) + " and not of type " + TypeName(wanted)
  }

  /**
    `'Field {} is of type {.__name__} and not of type {.__name__}'.format(*args)`
    with each argument already reduced to the text it contributes: the
    third placeholder needs a third argument, and without one `format`
    raises `IndexError`.
  */
  function FieldTypeError(args: seq<string>): (r: ParseOutcome)
    ensures r.Raised? <==> |args| < 3
  {
    if |args| < 3 then Raised(IndexError)
    else ValueError("Field " + args[0] + " is of type " + args[1] + " and not of type " + args[2])
  }

  /**
    The loop over the schema fields, in order. As written (`intended` false)
    the test is `type(message[field]) is not type(message_schema[field])`,
    whose right side is always `type`, and the error is formatted with two
    arguments; the intended test compares with the schema class itself and
    formats with three.
  */
  function CheckFields(entries: Dict, schema: Schema, message: Value, intended: bool): (r: ParseOutcome)
    ensures r.Parsed? ==> r.message == message
    decreases |schema|
  {
    if schema == [] then Parsed(message)
    else
      var (field, cls) := schema[0];
      if field !in Keys(entries) then ValueError(MissingFieldText(field))
      else
        var value := Lookup(entries, field);
        if !intended && TypeOf(value) != TypeOfClass(cls) then
          FieldTypeError([field, TypeName(cls)])
        else if intended && TypeOf(value) != cls then
          FieldTypeError([field, TypeName(TypeOf(value)), TypeName(cls)])
        else CheckFields(entries, schema[1..], message, intended)
  }

  /** Python's `sub in s` for strings. */
  predicate Contains(s: string, sub: string)
    decreases |s|
  {
    |sub| <= |s| && (s[..|sub|] == sub || Contains(s[1..], sub))
  }

  /**
    `parse_message` after decoding. `'type' in message` is a key test on a
    dict, a substring test on a str and an element test on a list, and
    raises `TypeError` on numbers, booleans and None; indexing a str or a
    list with 'type' raises `TypeError`, and so does looking up an
    unhashable type value in `MESSAGES`.
  */
  function Parse(loaded: Loaded, intended: bool): (r: ParseOutcome)
    ensures r.Parsed? ==> loaded.Decoded? && r.message == loaded.value && r.message.VDict?
  {
    match loaded
    case NotJson(error) => ValueError(error)
    case Decoded(v) =>
      match v
      case VDict(entries) =>
        if FieldType !in Keys(entries) then ValueError(NoTypeText)
        else
          var t := Lookup(entries, FieldType);
          if t.VList? || t.VDict? then Raised(TypeErr)
          else if !t.VStr? || MessageSchema(t.s).None? then ValueError(UnknownTypeText)
          else CheckFields(entries, MessageSchema(t.s).value, v, intended)
      case VStr(s) => if Contains(s, FieldType) then Raised(TypeErr) else ValueError(NoTypeText)
      case VList(items) => if VStr(FieldType) in items then Raised(TypeErr) else ValueError(NoTypeText)
      case _ => Raised(TypeErr)
  }

  /** `parse_message` as the source writes it. */
  function ParseMessageAsWritten(loaded: Loaded): (r: ParseOutcome)
    ensures r.Parsed? ==> loaded.Decoded? && r.message == loaded.value
  {
    Parse(loaded, false)
  }

  /** `parse_message` with the field type test its authors meant. */
  function ParseMessage(loaded: Loaded): (r: ParseOutcome)
    ensures r.Parsed? ==> loaded.Decoded? && r.message == loaded.value && r.message.VDict?
  {
    Parse(loaded, true)
  }

  /** `create_message`: `dict({'type': message_type}, **fields)`, before `json.dumps` and the newline. */
  function CreateMessage(messageType: string, fields: Dict): (m: Dict)
    ensures |m| > 0 && m[0].0 == FieldType
    ensures forall k :: k in Keys(m) <==> k == FieldType || k in Keys(fields)
  {
    var d: Dict := [(FieldType, VStr(messageType))];
    MergeKeysPrefix(d, fields);
    assert Keys(d) == [FieldType];
    Merge(d, fields)
  }

  /**
    The text `create_message` returns: the serialised message (`json.dumps`,
    given as `dumps`) and one newline, which ends every message on the socket.
  */
  function CreateMessageText(dumps: Dict -> string, messageType: string, fields: Dict): (text: string)
    ensures |text| > 0 && text[|text| - 1] == '\n'
    ensures text[..|text| - 1] == dumps(CreateMessage(messageType, fields))
  {
    dumps(CreateMessage(messageType, fields)) + "\n"
  }

  // ---------------------------------------------------------------------
  // Properties
  // ---------------------------------------------------------------------

  /** Every field keeps its value; a 'type' among the fields overrides the argument. */
  lemma CreateMessageFields(messageType: string, fields: Dict, k: string)
    requires UniqueKeys(fields)
    ensures Get(CreateMessage(messageType, fields), k) ==
      if k in Keys(fields) then Get(fields, k)
      else if k == FieldType then Some(VStr(messageType))
      else None
  {
    var d: Dict := [(FieldType, VStr(messageType))];
    MergeGet(d, fields, k);
  }

  /** A decoded object without 'type' is refused, by either test. */
  lemma NoTypeRefused(entries: Dict, intended: bool)
    requires FieldType !in Keys(entries)
    ensures Parse(Decoded(VDict(entries)), intended) == ValueError(NoTypeText)
  {
  }

  /** A type outside start, stop, error and results is refused. */
  lemma UnknownTypeRefused(entries: Dict, t: string, intended: bool)
    requires Get(entries, FieldType) == Some(VStr(t))
    requires t !in {TypeStartStream, TypeStopStream, TypeError, TypeResults}
    ensures Parse(Decoded(VDict(entries)), intended) == ValueError(UnknownTypeText)
  {
  }

  /** Every required field is present with exactly its schema class. */
  predicate Conforms(entries: Dict, schema: Schema)
  {
    forall i :: 0 <= i < |schema| ==>
      schema[i].0 in Keys(entries) && TypeOf(Lookup(entries, schema[i].0)) == schema[i].1
  }

  /** The intended field loop accepts exactly the conforming messages. */
  lemma {:induction false} CheckFieldsExactly(entries: Dict, schema: Schema, message: Value)
    ensures CheckFields(entries, schema, message, true).Parsed? <==> Conforms(entries, schema)
    decreases |schema|
  {
    if schema != [] {
      CheckFieldsExactly(entries, schema[1..], message);
      assert Conforms(entries, schema) <==>
        schema[0].0 in Keys(entries) && TypeOf(Lookup(entries, schema[0].0)) == schema[0].1
        && Conforms(entries, schema[1..]) by {
        if Conforms(entries, schema[1..]) {
          forall i | 1 <= i < |schema|
            ensures schema[i].0 in Keys(entries) && TypeOf(Lookup(entries, schema[i].0)) == schema[i].1
          {
            assert schema[i] == schema[1..][i - 1];
          }
        }
      }
    }
  }

  /**
    The first required field that is missing, or present with another
    class, decides the error; fields are examined in schema order.
  */
  lemma {:induction false} FirstBadFieldDecides(entries: Dict, schema: Schema, message: Value, k: nat)
    requires k < |schema| && Conforms(entries, schema[..k])
    ensures schema[k].0 !in Keys(entries) ==>
      CheckFields(entries, schema, message, true) == ValueError(MissingFieldText(schema[k].0))
    ensures schema[k].0 in Keys(entries) && TypeOf(Lookup(entries, schema[k].0)) != schema[k].1 ==>
      CheckFields(entries, schema, message, true) ==
        ValueError(FieldTypeText(schema[k].0, TypeOf(Lookup(entries, schema[k].0)), schema[k].1))
    decreases k
  {
    if k > 0 {
      assert schema[0] == schema[..k][0];
      assert Conforms(entries, schema[1..][..k - 1]) by {
        var tail := schema[1..][..k - 1];
        forall i | 0 <= i < |tail|
          ensures tail[i].0 in Keys(entries) && TypeOf(Lookup(entries, tail[i].0)) == tail[i].1
        {
          assert tail[i] == schema[..k][i + 1];
        }
      }
      FirstBadFieldDecides(entries, schema[1..], message, k - 1);
    }
  }

  /**
    The intended parser accepts exactly the objects whose type is known and
    whose required fields all conform, returns them unchanged (extra fields
    included), and accepts nothing else.
  */
  lemma ParseExactly(loaded: Loaded)
    ensures ParseMessage(loaded).Parsed? <==>
      && loaded.Decoded? && loaded.value.VDict?
      && Get(loaded.value.entries, FieldType).Some?
      && Get(loaded.value.entries, FieldType).value.VStr?
      && MessageSchema(Get(loaded.value.entries, FieldType).value.s).Some?
      && Conforms(loaded.value.entries, MessageSchema(Get(loaded.value.entries, FieldType).value.s).value)
  {
    if loaded.Decoded? && loaded.value.VDict? && FieldType in Keys(loaded.value.entries) {
      var t := Lookup(loaded.value.entries, FieldType);
      if t.VStr? && MessageSchema(t.s).Some? {
        CheckFieldsExactly(loaded.value.entries, MessageSchema(t.s).value, loaded.value);
      }
    }
  }

  /** A 'stop' message always validates and comes back unchanged, whatever else it holds. */
  lemma StopAccepted(entries: Dict, intended: bool)
    requires Get(entries, FieldType) == Some(VStr(TypeStopStream))
    ensures Parse(Decoded(VDict(entries)), intended) == Parsed(VDict(entries))
  {
  }

  /**
    As written, the first required field decides: when it is missing the
    error says so, and when it is present formatting the type error raises
    `IndexError`, whatever its value.
  */
  lemma AsWrittenFirstFieldRaises(entries: Dict, t: string)
    requires Get(entries, FieldType) == Some(VStr(t))
    requires MessageSchema(t).Some? && MessageSchema(t).value != []
    ensures var field := MessageSchema(t).value[0].0;
      ParseMessageAsWritten(Decoded(VDict(entries))) ==
        if field in Keys(entries) then Raised(IndexError) else ValueError(MissingFieldText(field))
  {
    var v := VDict(entries);
    assert Lookup(entries, FieldType) == VStr(t);
    assert ParseMessageAsWritten(Decoded(v)) == CheckFields(entries, MessageSchema(t).value, v, false);
    AsWrittenFirstField(entries, MessageSchema(t).value, v);
  }

  /** The field loop as written stops at the first field: missing, or present and refused. */
  lemma AsWrittenFirstField(entries: Dict, schema: Schema, message: Value)
    requires schema != []
    ensures CheckFields(entries, schema, message, false) ==
      if schema[0].0 in Keys(entries) then Raised(IndexError) else ValueError(MissingFieldText(schema[0].0))
  {
    if schema[0].0 in Keys(entries) {
      assert TypeOf(Lookup(entries, schema[0].0)) != TypeOfClass(schema[0].1);
    }
  }

  /** As written, only 'stop' messages ever validate. */
  lemma AsWrittenOnlyStop(loaded: Loaded)
    requires ParseMessageAsWritten(loaded).Parsed?
    ensures Get(loaded.value.entries, FieldType) == Some(VStr(TypeStopStream))
  {
    var entries := loaded.value.entries;
    var t := Lookup(entries, FieldType);
    if t.s != TypeStopStream {
      AsWrittenFirstFieldRaises(entries, t.s);
    }
  }

  /**
    An error message built by `create_message`, decoded again: the
    intended parser returns it, the parser as written raises `IndexError`
    (the case of tests/test_messages.py:26-36).
  */
  lemma ErrorMessageRoundTrip(text: string)
    ensures var m := CreateMessage(TypeError, [(FieldError, VStr(text))]);
      && ParseMessage(Decoded(VDict(m))) == Parsed(VDict(m))
      && ParseMessageAsWritten(Decoded(VDict(m))) == Raised(IndexError)
  {
    var fields: Dict := [(FieldError, VStr(text))];
    var m := CreateMessage(TypeError, fields);
    assert Keys(fields) == [FieldError];
    assert Lookup(fields, FieldError) == VStr(text);
    CreatedMessageParses(TypeError, fields);
    CreateMessageFields(TypeError, fields, FieldType);
    AsWrittenFirstFieldRaises(m, TypeError);
  }

  /**
    A created message whose fields conform to its type's schema reads back
    as itself with the intended parser.
  */
  lemma CreatedMessageParses(messageType: string, fields: Dict)
    requires UniqueKeys(fields) && FieldType !in Keys(fields)
    requires MessageSchema(messageType).Some?
    requires Conforms(fields, MessageSchema(messageType).value)
    ensures ParseMessage(Decoded(VDict(CreateMessage(messageType, fields)))) ==
      Parsed(VDict(CreateMessage(messageType, fields)))
  {
    var m := CreateMessage(messageType, fields);
    var schema := MessageSchema(messageType).value;
    assert forall i :: 0 <= i < |schema| ==> schema[i].0 != FieldType;
    CreateMessageFields(messageType, fields, FieldType);
    forall i | 0 <= i < |schema|
      ensures schema[i].0 in Keys(m) && TypeOf(Lookup(m, schema[i].0)) == schema[i].1
    {
      CreateMessageFields(messageType, fields, schema[i].0);
    }
    ParseExactly(Decoded(VDict(m)));
  }

  /** tests/test_messages.py:48-51: a numeric 'message' in an error message. */
  lemma NumericErrorText()
    ensures var m: Dict := [(FieldType, VStr(TypeError)), (FieldError, VInt(123456))];
      && ParseMessage(Decoded(VDict(m))) == ValueError(FieldTypeText(FieldError, IntType, StrType))
      && ParseMessageAsWritten(Decoded(VDict(m))) == Raised(IndexError)
  {
    var m: Dict := [(FieldType, VStr(TypeError)), (FieldError, VInt(123456))];
    assert FieldType != FieldError;
    assert m[1..] == [(FieldError, VInt(123456))];
    assert Get(m[1..], FieldError) == Some(VInt(123456));
    assert Get(m, FieldError) == Some(VInt(123456));
    assert Lookup(m, FieldError) == VInt(123456);
    assert Lookup(m, FieldType) == VStr(TypeError);
    var schema := MessageSchema(TypeError).value;
    assert schema == [(FieldError, StrType)];
    assert Parse(Decoded(VDict(m)), true) == CheckFields(m, schema, VDict(m), true);
    assert CheckFields(m, schema, VDict(m), true) == FieldTypeError([FieldError, "int", "str"]);
  }
}
