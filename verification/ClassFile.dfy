/** Bytes and the two encodings of text that meet in a class file. */
module ClassText {
  import opened Wrappers

  type byte = x: int | 0 <= x < 0x100

  /** A UTF-16 code unit of a name, as the Java Virtual Machine Specification stores it. */
  type CodeUnit = x: int | 0 <= x < 0x1_0000

  predicate IsSurrogate(unit: int) {
    0xD800 <= unit < 0xE000
  }

  /** Modified UTF-8, section 4.4.7: three bytes at most, and two for the zero unit. */
  function EncodeUnit(u: CodeUnit): (bytes: seq<byte>)
    ensures 1 <= |bytes| <= 3
  {
    if 0 < u < 0x80 then [u]
    else if u < 0x800 then [0xC0 + u / 0x40, 0x80 + u % 0x40]
    else [0xE0 + u / 0x1000, 0x80 + u / 0x40 % 0x40, 0x80 + u % 0x40]
  }

  function EncodeModified(units: seq<CodeUnit>): seq<byte> {
    if units == [] then [] else EncodeUnit(units[0]) + EncodeModified(units[1..])
  }

  predicate Continues(b: seq<byte>, i: nat, low: int, high: int) {
    i < |b| && low <= b[i] <= high
  }

  /** The number of bytes of the well-formed UTF-8 character at the front, or 0 when there is none. */
  function Leading(b: seq<byte>): (n: nat)
    requires b != []
    ensures n <= |b|
  {
    if b[0] < 0x80 then 1
    else if 0xC2 <= b[0] <= 0xDF then
      if Continues(b, 1, 0x80, 0xBF) then 2 else 0
    else if 0xE0 <= b[0] <= 0xEF then
      if Continues(b, 1, if b[0] == 0xE0 then 0xA0 else 0x80, if b[0] == 0xED then 0x9F else 0xBF)
         && Continues(b, 2, 0x80, 0xBF) then 3 else 0
    else if 0xF0 <= b[0] <= 0xF4 then
      if Continues(b, 1, if b[0] == 0xF0 then 0x90 else 0x80, if b[0] == 0xF4 then 0x8F else 0xBF)
         && Continues(b, 2, 0x80, 0xBF) && Continues(b, 3, 0x80, 0xBF) then 4 else 0
    else 0
  }

  function CodePoint(b: seq<byte>, n: nat): int
    requires n <= |b|
  {
    var payload := (i: nat) requires i < n => b[i] as int - 0x80;
    if n == 1 then b[0]
    else if n == 2 then (b[0] as int - 0xC0) * 0x40 + payload(1)
    else if n == 3 then (b[0] as int - 0xE0) * 0x1000 + payload(1) * 0x40 + payload(2)
    else if n == 4 then (b[0] as int - 0xF0) * 0x4_0000 + payload(1) * 0x1000 + payload(2) * 0x40 + payload(3)
    else 0
  }

  /** Strict UTF-8: no overlong form, no surrogate, nothing above U+10FFFF. */
  function DecodeUtf8(b: seq<byte>): Option<seq<int>> {
    if b == [] then Some([])
    else
      var n := Leading(b);
      if n == 0 then None
      else
        var rest := DecodeUtf8(b[n..]);
        if rest.None? then None else Some([CodePoint(b, n)] + rest.value)
  }

  /** The names whose two encodings agree. */
  predicate IsPlain(units: seq<CodeUnit>) {
    forall i :: 0 <= i < |units| ==> units[i] != 0 && !IsSurrogate(units[i])
  }

  lemma EncodedUnitLeads(u: CodeUnit, rest: seq<byte>)
    ensures var b := EncodeUnit(u) + rest;
            if u == 0 || IsSurrogate(u) then Leading(b) == 0
            else Leading(b) == |EncodeUnit(u)| && CodePoint(b, Leading(b)) == u
  {
    var b := EncodeUnit(u) + rest;
    assert b[0] == EncodeUnit(u)[0];
    assert |EncodeUnit(u)| > 1 ==> b[1] == EncodeUnit(u)[1];
    assert |EncodeUnit(u)| > 2 ==> b[2] == EncodeUnit(u)[2];
  }

  /** Reading modified UTF-8 as UTF-8 gives the name back, or fails, exactly by whether it is plain. */
  lemma {:induction false} DecodeOfModified(units: seq<CodeUnit>)
    ensures DecodeUtf8(EncodeModified(units)) == if IsPlain(units) then Some(units) else None
  {
    if units != [] {
      var tail := EncodeModified(units[1..]);
      EncodedUnitLeads(units[0], tail);
      DecodeOfModified(units[1..]);
      assert (EncodeUnit(units[0]) + tail)[|EncodeUnit(units[0])|..] == tail;
      assert units == [units[0]] + units[1..];
    }
  }
}

/** Reading a class's own name from its bytecode. */
module ClassFile {
  import opened Wrappers
  import opened ClassText

  type u2 = x: int | 0 <= x < 0x1_0000

  datatype Error =
    | InvalidBytecode
    | OutOfRange
    | UnknownConstant
    | NoSuchEntry
    | NotText
    | Undecodable

  /** What the reader remembers of a constant: the text of a name, or the index a class refers to. */
  datatype PoolValue = Name(bytes: seq<byte>) | Ref(index: u2)

  const MAGIC: seq<byte> := [0xCA, 0xFE, 0xBA, 0xBE]
  const UTF8: byte := 1
  const CLASS: byte := 7
  const SLASH := 0x2F
  const DOT := 0x2E

  /** Payload sizes of the constants the reader skips. */
  function SizeOf(tag: int): Option<nat> {
    if tag == 3 || tag == 4 || 9 <= tag <= 12 || tag == 17 || tag == 18 then Some(4)
    else if tag == 5 || tag == 6 then Some(8)
    else if tag == 8 || tag == 16 || tag == 19 || tag == 20 then Some(2)
    else if tag == 15 then Some(3)
    else None
  }

  function U2(data: seq<byte>, offset: nat): u2
    requires offset + 2 <= |data|
  {
    data[offset] as int * 0x100 + data[offset + 1] as int
  }

  function Dotted(text: seq<int>): seq<int> {
    seq(|text|, i requires 0 <= i < |text| => if text[i] == SLASH then DOT else text[i])
  }

  function Slice(data: seq<byte>, offset: nat, length: nat): seq<byte> {
    if offset >= |data| then []
    else if offset + length > |data| then data[offset..] else data[offset..offset + length]
  }

  /** One constant read at `offset`: the value kept, if any, its width in the pool, and the offset after it. */
  datatype Read = Read(kept: Option<PoolValue>, width: nat, offset: nat)

  function ReadConstant(data: seq<byte>, offset: nat): (r: Result<Read, Error>)
    ensures r.Success? ==> r.value.offset > offset && r.value.width > 0
  {
    if offset >= |data| then Failure(OutOfRange)
    else
      var tag := data[offset];
      if tag == UTF8 then
        if offset + 3 > |data| then Failure(OutOfRange)
        else
          var length := U2(data, offset + 1);
          Success(Read(Some(Name(Slice(data, offset + 3, length))), 1, offset + 3 + length))
      else if tag == CLASS then
        if offset + 3 > |data| then Failure(OutOfRange)
        else Success(Read(Some(Ref(U2(data, offset + 1))), 1, offset + 3))
      else if SizeOf(tag).Some? then
        Success(Read(None, if tag == 5 || tag == 6 then 2 else 1, offset + 1 + SizeOf(tag).value))
      else Failure(UnknownConstant)
  }

  function Keep(pool: map<nat, PoolValue>, index: nat, kept: Option<PoolValue>): map<nat, PoolValue> {
    if kept.Some? then pool[index := kept.value] else pool
  }

  datatype Pool = Pool(values: map<nat, PoolValue>, offset: nat)

  function ReadPool(data: seq<byte>, offset: nat, index: nat, count: nat, pool: map<nat, PoolValue>)
    : (r: Result<Pool, Error>)
    ensures r.Success? ==> r.value.offset >= offset
    decreases count - index
  {
    if index >= count then Success(Pool(pool, offset))
    else
      match ReadConstant(data, offset)
      case Failure(error) => Failure(error)
      case Success(read) => ReadPool(data, read.offset, index + read.width, count, Keep(pool, index, read.kept))
  }

  /** Following `this_class` through the pool to the text of the name. */
  function Resolve(pool: map<nat, PoolValue>, thisClass: nat): Result<seq<int>, Error> {
    if thisClass !in pool then Failure(NoSuchEntry)
    else
      match pool[thisClass]
      case Name(_) => Failure(NoSuchEntry)
      case Ref(index) =>
        if index !in pool then Failure(NoSuchEntry)
        else
          match pool[index]
          case Ref(_) => Failure(NotText)
          case Name(bytes) =>
            var text := DecodeUtf8(bytes);
            if text.None? then Failure(Undecodable) else Success(Dotted(text.value))
  }

  /** The answer once the pool has been read. */
  function Answer(data: seq<byte>, pool: Result<Pool, Error>): Result<seq<int>, Error> {
    match pool
    case Failure(error) => Failure(error)
    case Success(pool) =>
      if pool.offset + 4 > |data| then Failure(OutOfRange)
      else Resolve(pool.values, U2(data, pool.offset + 2))
  }

  function ReadClassName(data: seq<byte>): Result<seq<int>, Error> {
    if Slice(data, 0, 4) != MAGIC then Failure(InvalidBytecode)
    else if |data| < 10 then Failure(OutOfRange)
    else
      Answer(data, ReadPool(data, 10, 1, U2(data, 8), map[]))
  }

  lemma ReadsOn(data: seq<byte>, offset: nat, index: nat, count: nat, pool: map<nat, PoolValue>, read: Read)
    requires index < count && ReadConstant(data, offset) == Success(read)
    ensures ReadPool(data, offset, index, count, pool)
         == ReadPool(data, read.offset, index + read.width, count, Keep(pool, index, read.kept))
  {
  }

  lemma StopsAt(data: seq<byte>, offset: nat, index: nat, count: nat, pool: map<nat, PoolValue>, error: Error)
    requires index < count && ReadConstant(data, offset) == Failure(error)
    ensures ReadPool(data, offset, index, count, pool) == Failure(error)
  {
  }

  /** The reader's step over one constant. */
  method NextConstant(data: seq<byte>, start: nat) returns (read: Result<Read, Error>)
    ensures read == ReadConstant(data, start)
  {
    var offset := start;
    if offset >= |data| {
      return Failure(OutOfRange);
    }
    var tag := data[offset];
    offset := offset + 1;
    if tag == UTF8 {
      if offset + 2 > |data| {
        return Failure(OutOfRange);
      }
      var length := U2(data, offset);
      offset := offset + 2;
      read := Success(Read(Some(Name(Slice(data, offset, length))), 1, offset + length));
    } else if tag == CLASS {
      if offset + 2 > |data| {
        return Failure(OutOfRange);
      }
      read := Success(Read(Some(Ref(U2(data, offset))), 1, offset + 2));
    } else if SizeOf(tag).Some? {
      read := Success(Read(None, if tag == 5 || tag == 6 then 2 else 1, offset + SizeOf(tag).value));
    } else {
      read := Failure(UnknownConstant);
    }
  }

  /** The reader's loop over the constant pool. */
  method ClassName(data: seq<byte>) returns (name: Result<seq<int>, Error>)
    ensures name == ReadClassName(data)
  {
    if Slice(data, 0, 4) != MAGIC {
      return Failure(InvalidBytecode);
    }
    if |data| < 10 {
      return Failure(OutOfRange);
    }
    var count: int := U2(data, 8);
    ghost var whole := ReadPool(data, 10, 1, count, map[]);
    assert ReadClassName(data) == Answer(data, whole);
    var pool: map<nat, PoolValue>, offset: nat, index: nat := map[], 10, 1;
    while index < count
      invariant whole == ReadPool(data, offset, index, count, pool)
    {
      var read := NextConstant(data, offset);
      if read.Failure? {
        StopsAt(data, offset, index, count, pool, read.error);
        return Failure(read.error);
      }
      ReadsOn(data, offset, index, count, pool, read.value);
      if read.value.kept.Some? {
        pool := pool[index := read.value.kept.value];
      }
      offset := read.value.offset;
      index := index + read.value.width;
    }
    assert whole == Success(Pool(pool, offset));
    if offset + 4 > |data| {
      return Failure(OutOfRange);
    }
    name := Resolve(pool, U2(data, offset + 2));
  }

  // ---------------------------------------------------------------------------
  // The layout of sections 4.1 and 4.4 of the Java Virtual Machine Specification
  // ---------------------------------------------------------------------------

  predicate SameAt(data: seq<byte>, offset: nat, part: seq<byte>, i: nat)
    requires offset + |part| <= |data| && i < |part|
  {
    data[offset + i] == part[i]
  }

  /** `part` stands in `data` at `offset`. */
  predicate Holds(data: seq<byte>, offset: nat, part: seq<byte>) {
    && offset + |part| <= |data|
    && forall i {:trigger SameAt(data, offset, part, i)} :: 0 <= i < |part| ==> SameAt(data, offset, part, i)
  }

  /** The constants that do not name a class, table 4.4-A. */
  datatype Kind =
    | Integer | Float | Long | Double | String | Fieldref | Methodref | InterfaceMethodref | NameAndType
    | MethodHandle | MethodType | Dynamic | InvokeDynamic | Module | Package
  {
    function Tag(): (tag: byte) {
      match this
      case Integer => 3
      case Float => 4
      case Long => 5
      case Double => 6
      case String => 8
      case Fieldref => 9
      case Methodref => 10
      case InterfaceMethodref => 11
      case NameAndType => 12
      case MethodHandle => 15
      case MethodType => 16
      case Dynamic => 17
      case InvokeDynamic => 18
      case Module => 19
      case Package => 20
    }

    /** The bytes of the items after the tag, sections 4.4.2 to 4.4.12. */
    function Items(): nat {
      match this
      case Integer | Float => 4
      case Long | Double => 4 + 4
      case String | MethodType | Module | Package => 2
      case Fieldref | Methodref | InterfaceMethodref | NameAndType | Dynamic | InvokeDynamic => 2 + 2
      case MethodHandle => 1 + 2
    }
  }

  datatype Constant = Utf8(bytes: seq<byte>) | Class(nameIndex: u2) | Other(kind: Kind, payload: seq<byte>)
  {
    predicate Valid() {
      match this
      case Utf8(bytes) => |bytes| < 0x1_0000
      case Class(_) => true
      case Other(kind, payload) => |payload| == kind.Items()
    }

    /** Long and double constants take two indices of the pool (section 4.4.5). */
    function Width(): (n: nat)
      ensures n > 0
    {
      if Other? && (kind == Long || kind == Double) then 2 else 1
    }

    function Kept(): Option<PoolValue> {
      match this
      case Utf8(bytes) => Some(Name(bytes))
      case Class(nameIndex) => Some(Ref(nameIndex))
      case Other(_, _) => None
    }

    /** The number of bytes of the encoding. */
    function Size(): nat {
      match this
      case Utf8(bytes) => 3 + |bytes|
      case Class(_) => 3
      case Other(_, payload) => 1 + |payload|
    }

    /** The constant stands in `data` at `offset`. */
    predicate StandsAt(data: seq<byte>, offset: nat) {
      && offset + Size() <= |data|
      && match this
         case Utf8(bytes) =>
           data[offset] == UTF8 && U2(data, offset + 1) == |bytes| && Holds(data, offset + 3, bytes)
         case Class(nameIndex) => data[offset] == CLASS && U2(data, offset + 1) == nameIndex
         case Other(kind, payload) => data[offset] == kind.Tag() && Holds(data, offset + 1, payload)
    }

    /** The encoding of the constant, followed by `rest`. */
    function Before(rest: seq<byte>): seq<byte>
      requires Valid()
    {
      match this
      case Utf8(bytes) => [UTF8] + (U2Bytes(|bytes|) + (bytes + rest))
      case Class(nameIndex) => [CLASS] + (U2Bytes(nameIndex) + rest)
      case Other(kind, payload) => [kind.Tag()] + (payload + rest)
    }
  }

  function U2Bytes(n: u2): (b: seq<byte>)
    ensures |b| == 2 && U2(b, 0) == n
  {
    [n / 0x100, n % 0x100]
  }

  /** The constants of a pool, in order. */
  datatype Constants = Nil | Cons(head: Constant, tail: Constants)
  {
    predicate Valid() {
      Cons? ==> head.Valid() && tail.Valid()
    }

    function Bytes(): seq<byte>
      requires Valid()
    {
      if Nil? then [] else head.Before(tail.Bytes())
    }

    function Size(): nat {
      if Nil? then 0 else head.Size() + tail.Size()
    }

    /** The constants stand one after another in `data` from `offset`. */
    predicate StandAt(data: seq<byte>, offset: nat) {
      if Nil? then offset <= |data|
      else head.StandsAt(data, offset) && tail.StandAt(data, offset + head.Size())
    }

    function Span(): nat {
      if Nil? then 0 else head.Width() + tail.Span()
    }

    /** What stands at index `i` when the first constant has index `index`. */
    function At(index: nat, i: nat): Option<PoolValue> {
      if Nil? || i < index then None
      else if i == index then head.Kept()
      else tail.At(index + head.Width(), i)
    }

    /** The constants recorded in `pool` at their indices. */
    function Table(index: nat, pool: map<nat, PoolValue>): map<nat, PoolValue> {
      if Nil? then pool else tail.Table(index + head.Width(), Keep(pool, index, head.Kept()))
    }

    /** A reader that starts at `index` and stops once it reaches `count` reads exactly these constants. */
    predicate Fills(index: nat, count: nat) {
      if Nil? then index >= count else index < count && tail.Fills(index + head.Width(), count)
    }
  }

  datatype Layout = Layout(version: seq<byte>, count: u2, constants: Constants,
                           accessFlags: seq<byte>, thisClass: u2, rest: seq<byte>)
  {
    predicate Valid() {
      |version| == 4 && |accessFlags| == 2 && constants.Valid() && constants.Fills(1, count)
    }

    /** The count is one more than the indices the constants take (section 4.1). */
    predicate Conforms() {
      |version| == 4 && |accessFlags| == 2 && constants.Valid() && count == 1 + constants.Span()
    }

    /** The name the pool gives the class: `this_class` leads to a class entry, and that to text. */
    function OwnName(): Option<seq<int>> {
      match constants.At(1, thisClass)
      case Some(Ref(nameIndex)) => (
        match constants.At(1, nameIndex)
        case Some(Name(bytes)) =>
          var text := DecodeUtf8(bytes);
          if text.None? then None else Some(Dotted(text.value))
        case _ => None
      )
      case _ => None
    }

    function Bytes(): seq<byte>
      requires Valid()
    {
      MAGIC + (version + (U2Bytes(count) + (constants.Bytes() + (accessFlags + (U2Bytes(thisClass) + rest)))))
    }
  }

  lemma {:induction false} ExactCountFills(cs: Constants, index: nat)
    ensures cs.Fills(index, index + cs.Span())
  {
    if cs.Cons? {
      ExactCountFills(cs.tail, index + cs.head.Width());
    }
  }

  lemma HoldsConcat(data: seq<byte>, offset: nat, a: seq<byte>, b: seq<byte>)
    ensures Holds(data, offset, a + b) <==> Holds(data, offset, a) && Holds(data, offset + |a|, b)
  {
    if offset + |a| + |b| <= |data| {
      assert forall i :: 0 <= i < |a| ==> (SameAt(data, offset, a, i) <==> SameAt(data, offset, a + b, i));
      assert forall i {:trigger SameAt(data, offset + |a|, b, i)} :: 0 <= i < |b| ==>
               (SameAt(data, offset + |a|, b, i) <==> SameAt(data, offset, a + b, |a| + i));
      assert forall i :: |a| <= i < |a| + |b| ==>
               (SameAt(data, offset, a + b, i) <==> SameAt(data, offset + |a|, b, i - |a|));
    }
  }

  lemma HoldsSlice(data: seq<byte>, offset: nat, part: seq<byte>)
    ensures Holds(data, offset, part) <==> offset + |part| <= |data| && data[offset..offset + |part|] == part
  {
    if offset + |part| <= |data| {
      assert forall i :: 0 <= i < |part| ==>
               (SameAt(data, offset, part, i) <==> data[offset..offset + |part|][i] == part[i]);
    }
  }

  lemma HoldsWhole(data: seq<byte>, part: seq<byte>)
    ensures data == part <==> Holds(data, 0, part) && |part| == |data|
  {
    HoldsSlice(data, 0, part);
    assert data[0..|data|] == data;
  }

  lemma HoldsByte(data: seq<byte>, offset: nat, b: byte)
    ensures Holds(data, offset, [b]) <==> offset < |data| && data[offset] == b
  {
    if offset < |data| {
      assert SameAt(data, offset, [b], 0) <==> data[offset] == b;
    }
  }

  lemma HoldsU2(data: seq<byte>, offset: nat, n: u2)
    ensures Holds(data, offset, U2Bytes(n)) <==> offset + 2 <= |data| && U2(data, offset) == n
  {
    HoldsSlice(data, offset, U2Bytes(n));
    if offset + 2 <= |data| {
      assert data[offset..offset + 2] == [data[offset], data[offset + 1]];
    }
  }

  lemma TextStands(bytes: seq<byte>, data: seq<byte>, offset: nat, rest: seq<byte>)
    requires Utf8(bytes).Valid()
    ensures |Utf8(bytes).Before(rest)| == 3 + |bytes| + |rest|
    ensures Holds(data, offset, Utf8(bytes).Before(rest)) <==>
              Utf8(bytes).StandsAt(data, offset) && Holds(data, offset + 3 + |bytes|, rest)
  {
    HoldsByte(data, offset, UTF8);
    HoldsConcat(data, offset, [UTF8], U2Bytes(|bytes|) + (bytes + rest));
    HoldsConcat(data, offset + 1, U2Bytes(|bytes|), bytes + rest);
    HoldsU2(data, offset + 1, |bytes|);
    HoldsConcat(data, offset + 3, bytes, rest);
  }

  lemma ClassStands(nameIndex: u2, data: seq<byte>, offset: nat, rest: seq<byte>)
    ensures |Class(nameIndex).Before(rest)| == 3 + |rest|
    ensures Holds(data, offset, Class(nameIndex).Before(rest)) <==>
              Class(nameIndex).StandsAt(data, offset) && Holds(data, offset + 3, rest)
  {
    HoldsByte(data, offset, CLASS);
    HoldsConcat(data, offset, [CLASS], U2Bytes(nameIndex) + rest);
    HoldsConcat(data, offset + 1, U2Bytes(nameIndex), rest);
    HoldsU2(data, offset + 1, nameIndex);
  }

  lemma OtherStands(kind: Kind, payload: seq<byte>, data: seq<byte>, offset: nat, rest: seq<byte>)
    requires Other(kind, payload).Valid()
    ensures |Other(kind, payload).Before(rest)| == 1 + |payload| + |rest|
    ensures Holds(data, offset, Other(kind, payload).Before(rest)) <==>
              Other(kind, payload).StandsAt(data, offset) && Holds(data, offset + 1 + |payload|, rest)
  {
    var tag := kind.Tag();
    HoldsByte(data, offset, tag);
    HoldsConcat(data, offset, [tag], payload + rest);
    HoldsConcat(data, offset + 1, payload, rest);
  }

  lemma StandingIsHolding(c: Constant, data: seq<byte>, offset: nat, rest: seq<byte>)
    requires c.Valid()
    ensures |c.Before(rest)| == c.Size() + |rest|
    ensures Holds(data, offset, c.Before(rest)) <==> c.StandsAt(data, offset) && Holds(data, offset + c.Size(), rest)
  {
    match c
    case Utf8(bytes) => TextStands(bytes, data, offset, rest);
    case Class(nameIndex) => ClassStands(nameIndex, data, offset, rest);
    case Other(kind, payload) => OtherStands(kind, payload, data, offset, rest);
  }

  lemma {:induction false} AllStandingIsHolding(cs: Constants, data: seq<byte>, offset: nat)
    requires cs.Valid()
    ensures |cs.Bytes()| == cs.Size()
    ensures cs.StandAt(data, offset) <==> Holds(data, offset, cs.Bytes())
    decreases cs
  {
    if cs.Cons? {
      AllStandingIsHolding(cs.tail, data, offset + cs.head.Size());
      StandingIsHolding(cs.head, data, offset, cs.tail.Bytes());
    }
  }

  lemma ReadsPastOneConstant(data: seq<byte>, offset: nat, index: nat, count: nat, pool: map<nat, PoolValue>,
                             c: Constant)
    requires c.Valid() && c.StandsAt(data, offset) && index < count
    ensures ReadPool(data, offset, index, count, pool)
         == ReadPool(data, offset + c.Size(), index + c.Width(), count, Keep(pool, index, c.Kept()))
  {
    if c.Utf8? {
      HoldsSlice(data, offset + 3, c.bytes);
    }
    assert ReadConstant(data, offset) == Success(Read(c.Kept(), c.Width(), offset + c.Size()));
  }

  lemma {:induction false} TableHasEachAtItsIndex(cs: Constants, index: nat, pool: map<nat, PoolValue>, i: nat)
    requires forall j :: j in pool ==> j < index
    ensures var t := cs.Table(index, pool);
            (if i in t then Some(t[i]) else None) ==
            if i < index then (if i in pool then Some(pool[i]) else None) else cs.At(index, i)
    decreases cs
  {
    if cs.Cons? {
      TableHasEachAtItsIndex(cs.tail, index + cs.head.Width(), Keep(pool, index, cs.head.Kept()), i);
    }
  }

  /** Completeness: the encoded constants are read back at their own indices. */
  lemma {:induction false} ReadsWhatWasLaidOut(data: seq<byte>, offset: nat, index: nat, count: nat,
                                              pool: map<nat, PoolValue>, cs: Constants)
    requires cs.Valid() && cs.Fills(index, count) && cs.StandAt(data, offset)
    ensures ReadPool(data, offset, index, count, pool)
         == Success(Pool(cs.Table(index, pool), offset + cs.Size()))
    decreases cs
  {
    if cs.Cons? {
      var c := cs.head;
      ReadsPastOneConstant(data, offset, index, count, pool, c);
      ReadsWhatWasLaidOut(data, offset + c.Size(), index + c.Width(), count, Keep(pool, index, c.Kept()), cs.tail);
    }
  }

  /** The sizes the reader knows are those of the specification, for the same tags. */
  function KindOf(tag: byte): (kind: Kind)
    requires SizeOf(tag).Some?
    ensures kind.Tag() == tag && SizeOf(tag) == Some(kind.Items())
  {
    match tag
    case 3 => Integer
    case 4 => Float
    case 5 => Long
    case 6 => Double
    case 8 => String
    case 9 => Fieldref
    case 10 => Methodref
    case 11 => InterfaceMethodref
    case 12 => NameAndType
    case 15 => MethodHandle
    case 16 => MethodType
    case 17 => Dynamic
    case 18 => InvokeDynamic
    case 19 => Module
    case _ => Package
  }

  /** What reads as a first constant is one. */
  lemma FirstWasLaidOut(data: seq<byte>, offset: nat, index: nat, count: nat, pool: map<nat, PoolValue>)
    returns (c: Constant)
    requires index < count && ReadPool(data, offset, index, count, pool).Success?
    requires ReadPool(data, offset, index, count, pool).value.offset <= |data|
    ensures c.Valid() && c.StandsAt(data, offset)
    ensures ReadPool(data, offset, index, count, pool)
         == ReadPool(data, offset + c.Size(), index + c.Width(), count, Keep(pool, index, c.Kept()))
  {
    var end := ReadConstant(data, offset).value.offset;
    var tag := data[offset];
    if tag == UTF8 {
      c := Utf8(data[offset + 3..end]);
      HoldsSlice(data, offset + 3, c.bytes);
    } else if tag == CLASS {
      c := Class(U2(data, offset + 1));
    } else {
      c := Other(KindOf(tag), data[offset + 1..end]);
      HoldsSlice(data, offset + 1, c.payload);
    }
    ReadsOn(data, offset, index, count, pool, Read(c.Kept(), c.Width(), offset + c.Size()));
  }

  lemma WithOneInFront(data: seq<byte>, offset: nat, index: nat, count: nat, pool: map<nat, PoolValue>,
                       c: Constant, rest: Constants)
    requires c.Valid() && rest.Valid() && index < count
    ensures Cons(c, rest).Valid() && Cons(c, rest).Size() == c.Size() + rest.Size()
    ensures Cons(c, rest).Fills(index, count) <==> rest.Fills(index + c.Width(), count)
    ensures Cons(c, rest).StandAt(data, offset) <==> c.StandsAt(data, offset) && rest.StandAt(data, offset + c.Size())
    ensures Cons(c, rest).Table(index, pool) == rest.Table(index + c.Width(), Keep(pool, index, c.Kept()))
  {
  }

  /** Soundness: a pool that reads is the encoding of constants with that table. */
  lemma {:induction false} PoolWasLaidOut(data: seq<byte>, offset: nat, index: nat, count: nat,
                                         pool: map<nat, PoolValue>) returns (cs: Constants)
    requires ReadPool(data, offset, index, count, pool).Success?
    requires ReadPool(data, offset, index, count, pool).value.offset <= |data|
    ensures cs.Valid() && cs.Fills(index, count) && cs.StandAt(data, offset)
    ensures ReadPool(data, offset, index, count, pool).value
         == Pool(cs.Table(index, pool), offset + cs.Size())
    decreases count - index
  {
    if index >= count {
      cs := Nil;
    } else {
      var c := FirstWasLaidOut(data, offset, index, count, pool);
      var rest := PoolWasLaidOut(data, offset + c.Size(), index + c.Width(), count, Keep(pool, index, c.Kept()));
      cs := Cons(c, rest);
      WithOneInFront(data, offset, index, count, pool, c, rest);
    }
  }

  lemma HeaderParts(data: seq<byte>, version: seq<byte>, count: u2, tail: seq<byte>)
    requires |version| == 4
    ensures Holds(data, 0, MAGIC + (version + (U2Bytes(count) + tail))) <==>
              && Holds(data, 0, MAGIC) && Holds(data, 4, version)
              && |data| >= 10 && U2(data, 8) == count && Holds(data, 10, tail)
  {
    HoldsConcat(data, 0, MAGIC, version + (U2Bytes(count) + tail));
    HoldsConcat(data, 4, version, U2Bytes(count) + tail);
    HoldsConcat(data, 8, U2Bytes(count), tail);
    HoldsU2(data, 8, count);
  }

  lemma TrailerParts(data: seq<byte>, end: nat, accessFlags: seq<byte>, thisClass: u2, rest: seq<byte>)
    requires |accessFlags| == 2
    ensures Holds(data, end, accessFlags + (U2Bytes(thisClass) + rest)) <==>
              && Holds(data, end, accessFlags)
              && end + 4 <= |data| && U2(data, end + 2) == thisClass && Holds(data, end + 4, rest)
  {
    HoldsConcat(data, end, accessFlags, U2Bytes(thisClass) + rest);
    HoldsConcat(data, end + 2, U2Bytes(thisClass), rest);
    HoldsU2(data, end + 2, thisClass);
  }

  /** The parts of a layout stand one after another in its bytes, and nothing else does. */
  lemma LayoutParts(data: seq<byte>, f: Layout)
    requires f.Valid()
    ensures var end := 10 + |f.constants.Bytes()|;
            f.Bytes() == data <==>
              && Holds(data, 0, MAGIC) && Holds(data, 4, f.version)
              && |data| >= 10 && U2(data, 8) == f.count && Holds(data, 10, f.constants.Bytes())
              && Holds(data, end, f.accessFlags) && end + 4 <= |data| && U2(data, end + 2) == f.thisClass
              && Holds(data, end + 4, f.rest) && end + 4 + |f.rest| == |data|
  {
    var p := f.constants.Bytes();
    var trailer := f.accessFlags + (U2Bytes(f.thisClass) + f.rest);
    HeaderParts(data, f.version, f.count, p + trailer);
    HoldsConcat(data, 10, p, trailer);
    TrailerParts(data, 10 + |p|, f.accessFlags, f.thisClass, f.rest);
    HoldsWhole(data, f.Bytes());
  }

  /** What the reader says of any encoding. */
  lemma ReadsTheLayout(f: Layout)
    requires f.Valid()
    ensures ReadClassName(f.Bytes()) == Resolve(f.constants.Table(1, map[]), f.thisClass)
  {
    LayoutParts(f.Bytes(), f);
    AllStandingIsHolding(f.constants, f.Bytes(), 10);
    HoldsSlice(f.Bytes(), 0, MAGIC);
    ReadsWhatWasLaidOut(f.Bytes(), 10, 1, f.count, map[], f.constants);
  }

  lemma ResolvesToOwnName(f: Layout, name: seq<int>)
    ensures Resolve(f.constants.Table(1, map[]), f.thisClass) == Success(name) <==> f.OwnName() == Some(name)
  {
    TableHasEachAtItsIndex(f.constants, 1, map[], f.thisClass);
    var entry := f.constants.At(1, f.thisClass);
    if entry.Some? && entry.value.Ref? {
      TableHasEachAtItsIndex(f.constants, 1, map[], entry.value.index);
    }
  }

  /** Bytes that read to a name are the encoding of a layout with that name. */
  lemma LayoutOf(data: seq<byte>) returns (f: Layout)
    requires ReadClassName(data).Success?
    ensures f.Valid() && f.Bytes() == data
  {
    var cs := PoolWasLaidOut(data, 10, 1, U2(data, 8), map[]);
    AllStandingIsHolding(cs, data, 10);
    var end := 10 + |cs.Bytes()|;
    f := Layout(data[4..8], U2(data, 8), cs, data[end..end + 2], U2(data, end + 2), data[end + 4..]);
    HoldsSlice(data, 0, MAGIC);
    HoldsSlice(data, 4, f.version);
    HoldsSlice(data, end, f.accessFlags);
    HoldsSlice(data, end + 4, f.rest);
    LayoutParts(data, f);
  }

  /**
   The reader accepts exactly the encodings of laid-out class files whose pool leads from
   `this_class` to decodable text, and returns that text with dots for slashes.
   */
  lemma AcceptsExactlyTheLayouts(data: seq<byte>, name: seq<int>)
    ensures ReadClassName(data) == Success(name) <==>
              exists f: Layout :: f.Valid() && f.Bytes() == data && f.OwnName() == Some(name)
  {
    forall f: Layout | f.Valid() && f.Bytes() == data
      ensures ReadClassName(data) == Success(name) <==> f.OwnName() == Some(name)
    {
      ReadsTheLayout(f);
      ResolvesToOwnName(f, name);
    }
    if ReadClassName(data) == Success(name) {
      var f := LayoutOf(data);
    }
  }

  /**
   A class file of the specification names itself by modified UTF-8. The reader returns that
   name exactly when it has neither the zero unit nor a surrogate, and otherwise fails to decode.
   */
  lemma ReturnsThisClass(f: Layout, nameIndex: u2, name: seq<CodeUnit>)
    requires f.Conforms()
    requires f.constants.At(1, f.thisClass) == Some(Ref(nameIndex))
    requires f.constants.At(1, nameIndex) == Some(Name(EncodeModified(name)))
    ensures f.Valid()
    ensures ReadClassName(f.Bytes()) == if IsPlain(name) then Success(Dotted(name)) else Failure(Undecodable)
  {
    ExactCountFills(f.constants, 1);
    ReadsTheLayout(f);
    TableHasEachAtItsIndex(f.constants, 1, map[], f.thisClass);
    TableHasEachAtItsIndex(f.constants, 1, map[], nameIndex);
    DecodeOfModified(name);
  }
}
