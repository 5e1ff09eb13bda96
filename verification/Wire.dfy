/**
 The protobuf wire encoder: base 128 varints, keys and length-delimited records, written without
 holding a message in memory. Each message is encoded twice, to count its bytes and then to write them.
 */
module Wire {
  import opened Basics

  const VARINT: nat := 0
  const LENGTH_DELIMITED: nat := 2
  const MAX_VARINT_BYTES: nat := 10

  type FieldNumber = n: int | 0 <= n < 0x1_0000_0000

  /** What a message holds, in the order it is encoded. */
  datatype Field =
    | Uint(number: FieldNumber, value: Word)
    | Bytes(number: FieldNumber, data: Text)
    | Message(number: FieldNumber, content: Fields)
  datatype Fields = Nil | Cons(first: Field, rest: Fields)

  // ---- Varints ----

  /** Seven bits a byte, the lowest first; every byte but the last has its high bit set. */
  function Varint(value: nat): (bytes: Text)
    ensures |bytes| >= 1
  {
    if value < 128 then [value] else [value % 128 + 128] + Varint(value / 128)
  }

  /** Reads a varint of at most `limit` bytes off the front. */
  function ReadVarint(bytes: Text, limit: nat): (read: Option<(nat, Text)>)
    ensures read.Some? ==> |read.value.1| < |bytes|
    decreases limit
  {
    if bytes == [] || limit == 0 then None
    else if bytes[0] < 128 then Some((bytes[0], bytes[1..]))
    else match ReadVarint(bytes[1..], limit - 1)
    case None => None
    case Some((high, rest)) => Some((high * 128 + bytes[0] - 128, rest))
  }

  function Power128(k: nat): nat {
    if k == 0 then 1 else 128 * Power128(k - 1)
  }

  /** A varint is as short as it can be. */
  lemma {:induction false} VarintLength(value: nat, k: nat)
    requires k >= 1
    ensures |Varint(value)| <= k <==> value < Power128(k)
  {
    if value < 128 {
      PowerAtLeast(k);
    } else if k > 1 {
      VarintLength(value / 128, k - 1);
      assert value / 128 < Power128(k - 1) <==> value < 128 * Power128(k - 1);
    }
  }

  lemma {:induction false} PowerAtLeast(k: nat)
    requires k >= 1
    ensures Power128(k) >= 128
  {
    if k > 1 {
      PowerAtLeast(k - 1);
    }
  }

  /** Every 64-bit value fits in the ten bytes the encoder has for it. */
  lemma WordsFit(value: Word)
    ensures |Varint(value)| <= MAX_VARINT_BYTES
  {
    assert Power128(3) == 0x20_0000;
    assert Power128(6) == 0x400_0000_0000;
    assert Power128(9) == 0x8000_0000_0000_0000;
    assert Power128(10) >= TWO_TO_64;
    VarintLength(value, 10);
  }

  lemma {:induction false} VarintRoundTrip(value: nat, rest: Text, limit: nat)
    requires |Varint(value)| <= limit
    ensures ReadVarint(Varint(value) + rest, limit) == Some((value, rest))
  {
    var bytes := Varint(value) + rest;
    if value < 128 {
      assert bytes[1..] == rest;
    } else {
      VarintRoundTrip(value / 128, rest, limit - 1);
      assert bytes[1..] == Varint(value / 128) + rest;
    }
  }

  /** No varint begins another, so bytes decode in one way. */
  lemma VarintsAreUnique(a: Word, b: Word, afterA: Text, afterB: Text)
    requires Varint(a) + afterA == Varint(b) + afterB
    ensures a == b && afterA == afterB
  {
    WordsFit(a);
    WordsFit(b);
    VarintRoundTrip(a, afterA, MAX_VARINT_BYTES);
    VarintRoundTrip(b, afterB, MAX_VARINT_BYTES);
  }

  // ---- Signed integers ----

  type Long = n: int | -0x8000_0000_0000_0000 <= n < 0x8000_0000_0000_0000

  /** An `int64` is written as the varint of its two's complement. */
  function AsWord(value: Long): Word {
    if value < 0 then value + TWO_TO_64 else value
  }

  function AsLong(word: Word): Long {
    if word < 0x8000_0000_0000_0000 then word else word - TWO_TO_64
  }

  lemma SignedRoundTrip(value: Long)
    ensures AsLong(AsWord(value)) == value
    ensures value < 0 ==> |Varint(AsWord(value))| == MAX_VARINT_BYTES
  {
    if value < 0 {
      assert Power128(3) == 0x20_0000;
      assert Power128(6) == 0x400_0000_0000;
      assert Power128(9) == 0x8000_0000_0000_0000;
      VarintLength(AsWord(value), 9);
      WordsFit(AsWord(value));
    }
  }

  // ---- Records ----

  function Key(number: FieldNumber, wireType: nat): Text {
    Varint(number * 8 + wireType)
  }

  function FieldBytes(field: Field): Text
    decreases field
  {
    match field
    case Uint(number, value) => Key(number, VARINT) + Varint(value)
    case Bytes(number, value) => Key(number, LENGTH_DELIMITED) + (Varint(|value|) + value)
    case Message(number, content) =>
      var bytes := MessageBytes(content);
      Key(number, LENGTH_DELIMITED) + (Varint(|bytes|) + bytes)
  }

  function MessageBytes(fields: Fields): Text
    decreases fields
  {
    match fields
    case Nil => []
    case Cons(first, rest) => FieldBytes(first) + MessageBytes(rest)
  }

  /** Every length is one a 64-bit machine can hold. */
  predicate Small(fields: Fields)
    decreases fields
  {
    fields.Cons? ==> SmallField(fields.first) && Small(fields.rest)
  }

  predicate SmallField(field: Field)
    decreases field
  {
    match field
    case Uint(_, _) => true
    case Bytes(_, value) => |value| < TWO_TO_64
    case Message(_, content) => Small(content) && |MessageBytes(content)| < TWO_TO_64
  }

  // ---- A reader ----

  /** Which fields are messages, and what those hold. Any other length-delimited field is bytes. */
  datatype Schema = Schema(messages: map<FieldNumber, Schema>)

  predicate Conforms(fields: Fields, schema: Schema)
    decreases fields
  {
    match fields
    case Nil => true
    case Cons(first, rest) => FieldConforms(first, schema) && Conforms(rest, schema)
  }

  predicate FieldConforms(field: Field, schema: Schema)
    decreases field
  {
    match field
    case Uint(_, _) => true
    case Bytes(number, _) => number !in schema.messages
    case Message(number, content) => number in schema.messages && Conforms(content, schema.messages[number])
  }

  /** Reads a message from all of `bytes`, as the wire format says to. */
  function Parse(bytes: Text, schema: Schema): Option<Fields>
    decreases |bytes|, 0
  {
    if bytes == [] then Some(Nil) else
      match ReadVarint(bytes, MAX_VARINT_BYTES)
      case None => None
      case Some((key, afterKey)) =>
        if key / 8 >= 0x1_0000_0000 then None else
          match ReadVarint(afterKey, MAX_VARINT_BYTES)
          case None => None
          case Some((value, after)) =>
            if key % 8 == VARINT then
              if value >= TWO_TO_64 then None else Prepend(Some(Uint(key / 8, value)), Parse(after, schema))
            else if key % 8 == LENGTH_DELIMITED && value <= |after| then
              Prepend(ParseContent(key / 8, after[..value], schema), Parse(after[value..], schema))
            else None
  }

  function ParseContent(number: FieldNumber, content: Text, schema: Schema): Option<Field>
    decreases |content|, 1
  {
    if number !in schema.messages then Some(Bytes(number, content)) else
      match Parse(content, schema.messages[number])
      case None => None
      case Some(fields) => Some(Message(number, fields))
  }

  function Prepend(first: Option<Field>, rest: Option<Fields>): Option<Fields> {
    if first.Some? && rest.Some? then Some(Cons(first.value, rest.value)) else None
  }

  lemma KeyFits(number: FieldNumber, wireType: nat)
    requires wireType < 8
    ensures |Key(number, wireType)| <= MAX_VARINT_BYTES
    ensures (number * 8 + wireType) / 8 == number && (number * 8 + wireType) % 8 == wireType
  {
    WordsFit(number * 8 + wireType);
  }

  lemma ParseUint(number: FieldNumber, value: Word, rest: Text, schema: Schema)
    ensures Parse(FieldBytes(Uint(number, value)) + rest, schema) == Prepend(Some(Uint(number, value)),
                                                                             Parse(rest, schema))
  {
    hide Varint, ReadVarint;
    KeyFits(number, VARINT);
    WordsFit(value);
    VarintRoundTrip(number * 8, Varint(value) + rest, MAX_VARINT_BYTES);
    VarintRoundTrip(value, rest, MAX_VARINT_BYTES);
    ConcatAssociates(Key(number, VARINT), Varint(value), rest);
  }

  lemma ParseDelimited(number: FieldNumber, content: Text, rest: Text, schema: Schema)
    requires |content| < TWO_TO_64
    ensures Parse(Key(number, LENGTH_DELIMITED) + (Varint(|content|) + content) + rest, schema)
         == Prepend(ParseContent(number, content, schema), Parse(rest, schema))
  {
    hide Varint, ReadVarint, ParseContent;
    KeyFits(number, LENGTH_DELIMITED);
    WordsFit(|content|);
    VarintRoundTrip(number * 8 + LENGTH_DELIMITED, Varint(|content|) + (content + rest), MAX_VARINT_BYTES);
    VarintRoundTrip(|content|, content + rest, MAX_VARINT_BYTES);
    ConcatAssociates(Key(number, LENGTH_DELIMITED), Varint(|content|) + content, rest);
    ConcatAssociates(Varint(|content|), content, rest);
    assert (content + rest)[..|content|] == content && (content + rest)[|content|..] == rest;
  }

  /** What is read from a message's bytes is the message, whatever its depth. */
  lemma {:induction false} WireRoundTrip(fields: Fields, schema: Schema)
    requires Small(fields) && Conforms(fields, schema)
    ensures Parse(MessageBytes(fields), schema) == Some(fields)
    decreases fields
  {
    hide Varint, Parse;
    match fields {
      case Nil =>
        ParseNothing(schema);
      case Cons(first, rest) =>
        WireRoundTrip(rest, schema);
        match first {
          case Uint(number, value) =>
            ParseUint(number, value, MessageBytes(rest), schema);
          case Bytes(number, value) =>
            ParseDelimited(number, value, MessageBytes(rest), schema);
          case Message(number, content) =>
            ParseDelimited(number, MessageBytes(content), MessageBytes(rest), schema);
            WireRoundTrip(content, schema.messages[number]);
        }
    }
  }

  lemma ParseNothing(schema: Schema)
    ensures Parse([], schema) == Some(Nil)
  {
  }

  /** Two messages of one schema with the same bytes are the same. */
  lemma WireIsInjective(a: Fields, b: Fields, schema: Schema)
    requires Small(a) && Conforms(a, schema) && Small(b) && Conforms(b, schema)
    requires MessageBytes(a) == MessageBytes(b)
    ensures a == b
  {
    WireRoundTrip(a, schema);
    WireRoundTrip(b, schema);
  }

  // ---- The encoder ----

  /** A counting encoder only adds lengths up; a writing one appends to its output. */
  datatype Output = Counter(length: nat) | Writer(written: Text)

  function Emitted(output: Output, bytes: Text): Output {
    match output
    case Counter(length) => Counter(length + |bytes|)
    case Writer(written) => Writer(written + bytes)
  }

  lemma EmittedTwice(output: Output, a: Text, b: Text)
    ensures Emitted(Emitted(output, a), b) == Emitted(output, a + b)
  {
    if output.Writer? {
      ConcatAssociates(output.written, a, b);
    }
  }

  /** How often each scalar is encoded as `fields` are. */
  function Encodings(fields: Fields, writing: bool): multiset<Field>
    decreases fields
  {
    match fields
    case Nil => multiset{}
    case Cons(first, rest) => FieldEncodings(first, writing) + Encodings(rest, writing)
  }

  /** A message is counted, and only then, if its bytes are wanted, written. */
  function FieldEncodings(field: Field, writing: bool): multiset<Field>
    decreases field
  {
    match field
    case Message(_, content) =>
      Encodings(content, false) + if writing then Encodings(content, true) else multiset{}
    case _ => multiset{field}
  }

  /** For each place scalar `x` has at depth `d` of the messages, `d + 1`. */
  function DepthOf(fields: Fields, x: Field, depth: nat): nat
    decreases fields
  {
    match fields
    case Nil => 0
    case Cons(first, rest) =>
      DepthOf(rest, x, depth)
      + match first
        case Message(_, content) => DepthOf(content, x, depth + 1)
        case _ => if first == x then depth + 1 else 0
  }

  function Places(fields: Fields, x: Field): nat
    decreases fields
  {
    match fields
    case Nil => 0
    case Cons(first, rest) =>
      Places(rest, x)
      + match first
        case Message(_, content) => Places(content, x)
        case _ => if first == x then 1 else 0
  }

  /** A message's encodings are its first field's and the rest's. */
  lemma EncodingsOf(first: Field, rest: Fields, writing: bool, x: Field)
    ensures Encodings(Cons(first, rest), writing)[x] == FieldEncodings(first, writing)[x] + Encodings(rest, writing)[x]
    ensures Encodings(Nil, writing)[x] == 0
    ensures FieldEncodings(first, writing)[x]
         == match first
            case Message(_, content) =>
              Encodings(content, false)[x] + if writing then Encodings(content, true)[x] else 0
            case _ => if first == x then 1 else 0
  {
  }

  lemma {:induction false} CountedOnce(fields: Fields, x: Field)
    ensures Encodings(fields, false)[x] == Places(fields, x)
    decreases fields
  {
    hide Encodings, FieldEncodings;
    match fields {
      case Nil =>
        EncodingsOf(x, Nil, false, x);
      case Cons(first, rest) =>
        EncodingsOf(first, rest, false, x);
        CountedOnce(rest, x);
        if first.Message? {
          CountedOnce(first.content, x);
        }
    }
  }

  lemma {:induction false} Deeper(fields: Fields, x: Field, depth: nat)
    ensures DepthOf(fields, x, depth + 1) == DepthOf(fields, x, depth) + Places(fields, x)
    decreases fields
  {
    match fields {
      case Nil =>
      case Cons(first, rest) =>
        Deeper(rest, x, depth);
        if first.Message? {
          Deeper(first.content, x, depth + 1);
        }
    }
  }

  /** Writing encodes a scalar nested `d` messages deep exactly `d + 1` times, so work is not exponential. */
  lemma {:induction false} EncodedOncePerLevel(fields: Fields, x: Field)
    ensures Encodings(fields, true)[x] == DepthOf(fields, x, 0)
    decreases fields
  {
    hide Encodings, FieldEncodings;
    match fields {
      case Nil =>
        EncodingsOf(x, Nil, true, x);
      case Cons(first, rest) =>
        EncodingsOf(first, rest, true, x);
        EncodedOncePerLevel(rest, x);
        if first.Message? {
          EncodedOncePerLevel(first.content, x);
          CountedOnce(first.content, x);
          Deeper(first.content, x, 0);
        }
    }
  }

  /** What a message adds to everything encoded so far, in either mode. */
  lemma MessageEncodings(number: FieldNumber, content: Fields, before: multiset<Field>)
    ensures before + FieldEncodings(Message(number, content), true)
         == before + Encodings(content, false) + Encodings(content, true)
    ensures before + FieldEncodings(Message(number, content), false) == before + Encodings(content, false)
  {
  }

  class Encoder {
    var output: Output
    /** Each scalar this encoder, or one it counted with, has encoded. */
    ghost var encoded: multiset<Field>

    constructor Counting()
      ensures output == Counter(0) && encoded == multiset{}
    {
      output, encoded := Counter(0), multiset{};
    }

    constructor Writing(written: Text)
      ensures output == Writer(written) && encoded == multiset{}
    {
      output, encoded := Writer(written), multiset{};
    }

    method Write(bytes: Text)
      modifies `output
      ensures output == Emitted(old(output), bytes)
    {
      match output {
        case Counter(length) => output := Counter(length + |bytes|);
        case Writer(written) => output := Writer(written + bytes);
      }
    }

    method WriteVarint(value: Word)
      modifies `output
      ensures output == Emitted(old(output), Varint(value))
    {
      WordsFit(value);
      var bytes := new Byte[MAX_VARINT_BYTES](_ => 0);
      var length, left := 0, value;
      while left >= 128
        invariant left >= 0 && 0 <= length && length + |Varint(left)| == |Varint(value)|
        invariant length < bytes.Length && bytes[..length] + Varint(left) == Varint(value)
        invariant output == old(output)
      {
        ghost var before := bytes[..length];
        bytes[length] := left % 128 + 128;
        assert bytes[..length + 1] == before + [left % 128 + 128];
        ConcatAssociates(before, [left % 128 + 128], Varint(left / 128));
        left := left / 128;
        length := length + 1;
      }
      ghost var before := bytes[..length];
      bytes[length] := left;
      assert bytes[..length + 1] == before + [left];
      Write(bytes[..length + 1]);
    }

    method WriteKey(number: FieldNumber, wireType: nat)
      requires wireType < 8
      modifies `output
      ensures output == Emitted(old(output), Key(number, wireType))
    {
      WriteVarint(number * 8 + wireType);
    }

    method WriteUint(number: FieldNumber, value: Word)
      modifies this
      ensures output == Emitted(old(output), FieldBytes(Uint(number, value)))
      ensures encoded == old(encoded) + multiset{Uint(number, value)}
    {
      WriteKey(number, VARINT);
      WriteVarint(value);
      EmittedTwice(old(output), Key(number, VARINT), Varint(value));
      encoded := encoded + multiset{Uint(number, value)};
    }

    method WriteInt(number: FieldNumber, value: Long)
      modifies this
      ensures output == Emitted(old(output), FieldBytes(Uint(number, AsWord(value))))
      ensures encoded == old(encoded) + multiset{Uint(number, AsWord(value))}
    {
      WriteUint(number, AsWord(value));
    }

    method WriteBytes(number: FieldNumber, value: Text)
      requires |value| < TWO_TO_64
      modifies this
      ensures output == Emitted(old(output), FieldBytes(Bytes(number, value)))
      ensures encoded == old(encoded) + multiset{Bytes(number, value)}
    {
      WriteKey(number, LENGTH_DELIMITED);
      WriteVarint(|value|);
      Write(value);
      EmittedTwice(Emitted(old(output), Key(number, LENGTH_DELIMITED)), Varint(|value|), value);
      EmittedTwice(old(output), Key(number, LENGTH_DELIMITED), Varint(|value|) + value);
      encoded := encoded + multiset{Bytes(number, value)};
    }

    /** Counts the message, writes its length, and then, if it is writing, writes it. */
    method WriteMessage(number: FieldNumber, content: Fields)
      requires SmallField(Message(number, content))
      modifies this
      ensures output == Emitted(old(output), FieldBytes(Message(number, content)))
      ensures encoded == old(encoded) + FieldEncodings(Message(number, content), old(output).Writer?)
      decreases content, 1
    {
      hide Varint, Key, MessageBytes, Encodings, FieldEncodings;
      MessageEncodings(number, content, encoded);
      var counter := new Encoder.Counting();
      counter.Encode(content);
      var length := counter.output.length;
      encoded := encoded + counter.encoded;
      WriteKey(number, LENGTH_DELIMITED);
      WriteVarint(length);
      ghost var bytes := MessageBytes(content);
      EmittedTwice(Emitted(old(output), Key(number, LENGTH_DELIMITED)), Varint(|bytes|), bytes);
      EmittedTwice(old(output), Key(number, LENGTH_DELIMITED), Varint(|bytes|) + bytes);
      if output.Writer? {
        Encode(content);
      } else {
        output := Counter(output.length + length);
      }
    }

    /** Encodes what a message holds, one field after another. */
    method Encode(fields: Fields)
      requires Small(fields)
      modifies this
      ensures output == Emitted(old(output), MessageBytes(fields))
      ensures encoded == old(encoded) + Encodings(fields, old(output).Writer?)
      decreases fields, 0
    {
      match fields {
        case Nil =>
          assert old(output).Writer? ==> old(output).written + [] == old(output).written;
        case Cons(first, rest) =>
          match first {
            case Uint(number, value) => WriteUint(number, value);
            case Bytes(number, value) => WriteBytes(number, value);
            case Message(number, content) => WriteMessage(number, content);
          }
          EmittedTwice(old(output), FieldBytes(first), MessageBytes(rest));
          Encode(rest);
      }
    }
  }
}
