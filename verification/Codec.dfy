/** The protobuf code of KVOp in pkg/command/commandpb/command.pb.go: Size, the writer that fills a buffer from its end,
    and the reader with all its errors.  A missing byte slice and an empty one are the same here. */
module Codec {
  import opened Quorums
  import opened Varints

  datatype KVOp = KVOp(key: Bytes, value: Bytes, read: bool)

  const EMPTY := KVOp([], [], false)

  // ----- the wire form

  /** A length-delimited field, left out when empty. */
  function BytesField(tag: Byte, s: Bytes): Bytes {
    if s == [] then [] else [tag] + Varint(|s|) + s
  }

  function BoolField(tag: Byte, b: bool): Bytes {
    if b then [tag, 1] else []
  }

  function Encoded(m: KVOp): Bytes {
    BytesField(0x0a, m.key) + BytesField(0x12, m.value) + BoolField(0x18, m.read)
  }

  function Size(m: KVOp): nat {
    (if |m.key| > 0 then 1 + |m.key| + Sov(|m.key|) else 0)
    + (if |m.value| > 0 then 1 + |m.value| + Sov(|m.value|) else 0)
    + (if m.read then 2 else 0)
  }

  /** Size is the length of what is written. */
  lemma SizeIsLength(m: KVOp)
    ensures Size(m) == |Encoded(m)|
  {
    SovIsLength(|m.key|);
    SovIsLength(|m.value|);
  }

  // ----- writing

  /** One length-delimited field in front of offset. */
  method WriteBytes(a: array<Byte>, offset: nat, tag: Byte, s: Bytes) returns (i: nat)
    requires |BytesField(tag, s)| <= offset <= a.Length && |s| < TWO64
    modifies a
    ensures i == offset - |BytesField(tag, s)| && a[..] == old(a[..i]) + BytesField(tag, s) + old(a[offset..])
  {
    BytesFieldIs(tag, s);
    hide Varint, BytesField;
    if |s| > 0 {
      i := WriteTagged(a, offset, tag, s);
    } else {
      i := offset;
      Whole(a[..], offset);
    }
  }

  lemma Whole(s: Bytes, k: nat)
    requires k <= |s|
    ensures s == s[..k] + [] + s[k..]
  {
  }

  method SetByte(a: array<Byte>, i: nat, b: Byte)
    requires i < a.Length
    modifies a
    ensures a[..] == old(a[..])[i := b]
  {
    a[i] := b;
  }

  /** The bytes, their length and the tag, each in front of the other. */
  method WriteTagged(a: array<Byte>, offset: nat, tag: Byte, s: Bytes) returns (i: nat)
    requires 1 + |Varint(|s|)| + |s| <= offset <= a.Length && |s| < TWO64
    modifies a
    ensures i == offset - |s| - |Varint(|s|)| - 1 && a[..] == old(a[..i]) + ([tag] + Varint(|s|) + s) + old(a[offset..])
  {
    ghost var was := a[..];
    SovIsLength(|s|);
    hide Varint, Sov;
    i := offset - |s|;
    CopyInto(a, i, s);
    ghost var copied := a[..];
    i := Encode(a, i, |s|);
    ghost var sized := a[..];
    i := i - 1;
    SetByte(a, i, tag);
    Layers(was, copied, sized, offset, s, Varint(|s|), tag);
  }

  method WriteBool(a: array<Byte>, offset: nat, tag: Byte, b: bool) returns (i: nat)
    requires 2 <= offset <= a.Length || (!b && offset <= a.Length)
    modifies a
    ensures i == offset - |BoolField(tag, b)| && a[..] == old(a[..i]) + BoolField(tag, b) + old(a[offset..])
  {
    ghost var was := a[..];
    i := offset;
    if b {
      i := i - 1;
      a[i] := 1;
      i := i - 1;
      a[i] := tag;
      assert a[..] == was[..i] + [tag, 1] + was[offset..];
    } else {
      assert was == was[..offset] + [] + was[offset..];
    }
  }

  /** A value, its length and its tag put in front of one another. */
  lemma Layers(was: Bytes, copied: Bytes, sized: Bytes, offset: nat, s: Bytes, len: Bytes, tag: Byte)
    requires 1 + |len| + |s| <= offset <= |was|
    requires copied == was[..offset - |s|] + s + was[offset..]
    requires sized == copied[..offset - |s| - |len|] + len + copied[offset - |s|..]
    ensures var i := offset - |s| - |len| - 1; sized[i := tag] == was[..i] + ([tag] + len + s) + was[offset..]
  {
  }

  /** copy. */
  method CopyInto(a: array<Byte>, at: nat, s: Bytes)
    requires at + |s| <= a.Length
    modifies a
    ensures a[..] == old(a[..at]) + s + old(a[at + |s|..])
  {
    ghost var was := a[..];
    assert was == was[..at] + s[..0] + was[at..];
    for k := 0 to |s|
      invariant a[..] == was[..at] + s[..k] + was[at + k..]
    {
      a[at + k] := s[k];
      assert a[..] == was[..at] + s[..k + 1] + was[at + k + 1..];
    }
    assert s[..|s|] == s;
  }

  /** MarshalToSizedBuffer fills the end of the buffer, last field first, and returns how many bytes it took. */
  method MarshalToSizedBuffer(m: KVOp, a: array<Byte>) returns (n: nat)
    requires Size(m) <= a.Length && a.Length < TWO63
    modifies a
    ensures n == Size(m) && a[..] == old(a[..a.Length - n]) + Encoded(m)
  {
    SizeIsLength(m);
    ghost var was := a[..];
    ghost var key, value, read := BytesField(0x0a, m.key), BytesField(0x12, m.value), BoolField(0x18, m.read);
    assert Encoded(m) == key + value + read;
    hide BytesField, BoolField, Size, Encoded;
    var i := WriteBool(a, a.Length, 0x18, m.read);
    AtEnd(was, a[..], i, read);
    ghost var before, j := a[..], i;
    i := WriteBytes(a, i, 0x12, m.value);
    Stacked(was, before, a[..], j, i, value, read);
    before, j := a[..], i;
    i := WriteBytes(a, i, 0x0a, m.key);
    Stacked(was, before, a[..], j, i, key, value + read);
    Regroup3(key, value, read);
    n := a.Length - i;
  }

  lemma Regroup3(a: Bytes, b: Bytes, c: Bytes)
    ensures a + (b + c) == a + b + c
  {
  }

  lemma AtEnd(was: Bytes, now: Bytes, i: nat, field: Bytes)
    requires i <= |was| && now == was[..i] + field + was[|was|..]
    ensures now == was[..i] + field
  {
  }

  /** A field put in front of what has been written. */
  lemma Stacked(was: Bytes, before: Bytes, now: Bytes, j: nat, i: nat, field: Bytes, written: Bytes)
    requires i <= j <= |was| && j - i == |field| && before == was[..j] + written
    requires now == before[..i] + field + before[j..]
    ensures now == was[..i] + (field + written)
  {
    assert before[..i] == was[..i] && before[j..] == written;
  }

  // ----- reading

  /** The conversion to int32. */
  function ToInt32(x: nat): int {
    var y := x % 0x1_0000_0000;
    if y >= 0x8000_0000 then y - 0x1_0000_0000 else y
  }

  datatype Span = Span(from: nat, to: nat) | NoSpan(error: Error)

  /** A length and the bytes it announces.  As an int the length may be negative, and so may the end. */
  function ReadSpan(data: Bytes, i: nat): (r: Span)
    requires i <= |data|
    ensures r.Span? ==> i < r.from <= r.to <= |data|
  {
    match Decode(data, i)
    case Failed(e) => NoSpan(e)
    case Value(v, next) =>
      if v >= TWO63 || next + v >= TWO63 then NoSpan(InvalidLength)
      else if next + v > |data| then NoSpan(UnexpectedEOF)
      else Span(next, next + v)
  }

  datatype Skipped = Skipped(n: nat) | NotSkipped(error: Error)

  /** skipCommand from position j inside depth groups: one field, or one group with all it holds. */
  function SkipFrom(d: Bytes, j: nat, depth: nat): (r: Skipped)
    ensures r.Skipped? ==> r.n > j
    decreases |d| - j
  {
    if j >= |d| then NotSkipped(UnexpectedEOF)
    else match Decode(d, j)
         case Failed(e) => NotSkipped(e)
         case Value(wire, next) =>
           match SkipBody(d, next, wire % 8)
           case NotSkipped(e) => NotSkipped(e)
           case Skipped(k) =>
             if wire % 8 == 4 && depth == 0 then NotSkipped(UnexpectedEndOfGroup)
             else if k >= TWO63 then NotSkipped(InvalidLength)
             else
               var inner := if wire % 8 == 3 then depth + 1 else if wire % 8 == 4 then depth - 1 else depth;
               if inner == 0 then Skipped(k) else SkipFrom(d, k, inner)
  }

  /** What follows a tag, by wire type. */
  function SkipBody(d: Bytes, next: nat, wireType: nat): (r: Skipped)
    requires next <= |d|
    ensures r.Skipped? ==> r.n >= next
  {
    if wireType == 0 then
      (match Decode(d, next) case Failed(e) => NotSkipped(e) case Value(_, k) => Skipped(k))
    else if wireType == 1 then Skipped(next + 8)
    else if wireType == 2 then
      (match Decode(d, next)
       case Failed(e) => NotSkipped(e)
       case Value(v, k) => if v >= TWO63 then NotSkipped(InvalidLength) else Skipped(k + v))
    else if wireType == 3 || wireType == 4 then Skipped(next)
    else if wireType == 5 then Skipped(next + 4)
    else NotSkipped(IllegalWireType)
  }

  /** The message so far, and what stopped the reader. */
  datatype Parsed = Parsed(m: KVOp, error: Option<Error>)

  /** One field: the new message and the position behind it. */
  datatype Field = Field(m: KVOp, next: nat) | Bad(error: Error)

  function ReadField(data: Bytes, i: nat, m: KVOp): (r: Field)
    requires i < |data|
    ensures r.Field? ==> i < r.next <= |data|
  {
    match Decode(data, i)
    case Failed(e) => Bad(e)
    case Value(wire, next) =>
      var fieldNum, wireType := ToInt32(wire / 8), wire % 8;
      if wireType == 4 then Bad(EndGroup)
      else if fieldNum <= 0 then Bad(IllegalTag)
      else if fieldNum == 1 || fieldNum == 2 then
        if wireType != 2 then Bad(WrongWireType)
        else match ReadSpan(data, next)
             case NoSpan(e) => Bad(e)
             case Span(from, to) => Field(if fieldNum == 1 then m.(key := data[from..to]) else m.(value := data[from..to]), to)
      else if fieldNum == 3 then
        if wireType != 0 then Bad(WrongWireType)
        else match Decode(data, next)
             case Failed(e) => Bad(e)
             case Value(v, k) => Field(m.(read := v != 0), k)
      else
        match SkipFrom(data[i..], 0, 0)
        case NotSkipped(e) => Bad(e)
        case Skipped(n) =>
          if i + n >= TWO63 then Bad(InvalidLength)
          else if i + n > |data| then Bad(UnexpectedEOF)
          else Field(m, i + n)
  }

  function Parse(data: Bytes, i: nat, m: KVOp): Parsed
    decreases |data| - i
  {
    if i >= |data| then Parsed(m, None)
    else match ReadField(data, i, m)
         case Bad(e) => Parsed(m, Some(e))
         case Field(n, next) => Parse(data, next, n)
  }

  function Unmarshal(data: Bytes): Parsed {
    Parse(data, 0, EMPTY)
  }

  /** The message that Unmarshal fills in. */
  class Message {
    var key: Bytes
    var value: Bytes
    var read: bool

    function State(): KVOp
      reads this
    {
      KVOp(key, value, read)
    }

    constructor ()
      ensures State() == EMPTY
    {
      key, value, read := [], [], false;
    }

    /** Fields are set as they come; what an error leaves behind stays. */
    method Fill(data: Bytes) returns (error: Option<Error>)
      modifies this
      ensures Parsed(State(), error) == Parse(data, 0, old(State()))
    {
      var i := 0;
      while i < |data|
        invariant 0 <= i <= |data|
        invariant Parse(data, i, State()) == Parse(data, 0, old(State()))
        decreases |data| - i
      {
        i, error := FillOne(data, i);
        if error.Some? {
          return;
        }
      }
      return None;
    }

    /** One field. */
    method FillOne(data: Bytes, preIndex: nat) returns (i: nat, error: Option<Error>)
      requires preIndex < |data|
      modifies this
      ensures var r := ReadField(data, preIndex, old(State()));
        if r.Bad? then error == Some(r.error) && State() == old(State()) else error == None && i == r.next && State() == r.m
    {
      i := preIndex;
      var tag := ReadVarint(data, i);
      if tag.Failed? {
        return i, Some(tag.error);
      }
      var fieldNum, wireType := ToInt32(tag.v / 8), tag.v % 8;
      if wireType == 4 {
        return i, Some(EndGroup);
      }
      if fieldNum <= 0 {
        return i, Some(IllegalTag);
      }
      if fieldNum == 1 || fieldNum == 2 {
        if wireType != 2 {
          return i, Some(WrongWireType);
        }
        var len := ReadVarint(data, tag.next);
        if len.Failed? {
          return i, Some(len.error);
        }
        if len.v >= TWO63 || len.next + len.v >= TWO63 {
          return i, Some(InvalidLength);
        }
        if len.next + len.v > |data| {
          return i, Some(UnexpectedEOF);
        }
        if fieldNum == 1 {
          key := data[len.next..len.next + len.v];
        } else {
          value := data[len.next..len.next + len.v];
        }
        i := len.next + len.v;
      } else if fieldNum == 3 {
        if wireType != 0 {
          return i, Some(WrongWireType);
        }
        var v := ReadVarint(data, tag.next);
        if v.Failed? {
          return i, Some(v.error);
        }
        read := v.v != 0;
        i := v.next;
      } else {
        var s := SkipField(data[preIndex..]);
        if s.NotSkipped? {
          return i, Some(s.error);
        }
        if preIndex + s.n >= TWO63 {
          return i, Some(InvalidLength);
        }
        if preIndex + s.n > |data| {
          return i, Some(UnexpectedEOF);
        }
        i := preIndex + s.n;
      }
      return i, None;
    }
  }

  /** skipCommand as a loop. */
  method SkipField(d: Bytes) returns (r: Skipped)
    ensures r == SkipFrom(d, 0, 0)
  {
    hide Decode, SkipBody;
    var j: nat, depth: nat := 0, 0;
    while j < |d|
      invariant SkipFrom(d, 0, 0) == SkipFrom(d, j, depth)
      decreases |d| - j
    {
      var tag := ReadVarint(d, j);
      if tag.Failed? {
        return NotSkipped(tag.error);
      }
      var body := SkipBody(d, tag.next, tag.v % 8);
      if body.NotSkipped? {
        return body;
      }
      if tag.v % 8 == 3 {
        depth := depth + 1;
      } else if tag.v % 8 == 4 {
        if depth == 0 {
          return NotSkipped(UnexpectedEndOfGroup);
        }
        depth := depth - 1;
      }
      j := body.n;
      if j >= TWO63 {
        return NotSkipped(InvalidLength);
      }
      if depth == 0 {
        return Skipped(j);
      }
    }
    return NotSkipped(UnexpectedEOF);
  }

  // ----- round trips

  lemma TagByte(data: Bytes, i: nat)
    requires i < |data| && data[i] < 128
    ensures Decode(data, i) == Value(data[i], i + 1)
  {
    assert Pow(0) == 1;
  }

  lemma ParseStep(data: Bytes, i: nat, m: KVOp)
    requires i < |data|
    ensures ReadField(data, i, m).Field? ==> Parse(data, i, m) == Parse(data, ReadField(data, i, m).next, ReadField(data, i, m).m)
  {
    hide ReadField;
  }

  /** A bytes field, wherever it stands, sets its field and nothing else. */
  lemma BytesFieldRead(pre: Bytes, tag: Byte, s: Bytes, post: Bytes, m: KVOp)
    requires tag == 0x0a || tag == 0x12
    requires |pre| + |BytesField(tag, s)| + |post| < TWO63
    ensures var data := pre + BytesField(tag, s) + post;
      Parse(data, |pre|, m) ==
      Parse(data, |pre| + |BytesField(tag, s)|, if s == [] then m else if tag == 0x0a then m.(key := s) else m.(value := s))
  {
    hide BytesField, Varint, Parse;
    BytesFieldIs(tag, s);
    if s != [] {
      TaggedRead(pre, tag, Varint(|s|), s, post, m);
    }
  }

  lemma BytesFieldIs(tag: Byte, s: Bytes)
    ensures BytesField(tag, s) == if s == [] then [] else [tag] + Varint(|s|) + s
  {
    hide Varint;
  }

  lemma TaggedRead(pre: Bytes, tag: Byte, len: Bytes, s: Bytes, post: Bytes, m: KVOp)
    requires (tag == 0x0a || tag == 0x12) && len == Varint(|s|) && |pre| + 1 + |len| + |s| + |post| < TWO63
    ensures var data := pre + ([tag] + len + s) + post;
      Parse(data, |pre|, m) ==
      Parse(data, |pre| + |[tag] + len + s|, if tag == 0x0a then m.(key := s) else m.(value := s))
  {
    hide Varint, Decode, Parse;
    var data, from := pre + ([tag] + len + s) + post, |pre| + 1 + |len|;
    Regrouped(pre, tag, len, s, post);
    RoundTrip(pre + [tag], |s|, s + post);
    TaggedAt(data, |pre|, tag, s, from, m);
  }

  /** The same for a buffer in which the field starts at i and its bytes at from. */
  lemma TaggedAt(data: Bytes, i: nat, tag: Byte, s: Bytes, from: nat, m: KVOp)
    requires (tag == 0x0a || tag == 0x12) && i < |data| < TWO63 && data[i] == tag
    requires |s| < TWO63 && Decode(data, i + 1) == Value(|s|, from) && from + |s| <= |data| && data[from..from + |s|] == s
    ensures Parse(data, i, m) == Parse(data, from + |s|, if tag == 0x0a then m.(key := s) else m.(value := s))
  {
    hide Decode, Parse, ReadSpan, ReadField;
    TagByte(data, i);
    SpanIs(data, i + 1, |s|, from);
    FieldRead(data, i, m, tag);
    ParseStep(data, i, m);
  }

  lemma SpanIs(data: Bytes, i: nat, n: nat, from: nat)
    requires i <= |data| < TWO63 && n < TWO63 && Decode(data, i) == Value(n, from) && from + n <= |data|
    ensures ReadSpan(data, i) == Span(from, from + n)
  {
    hide Decode;
  }

  lemma Regrouped(pre: Bytes, tag: Byte, len: Bytes, s: Bytes, post: Bytes)
    ensures var data, from := pre + ([tag] + len + s) + post, |pre| + 1 + |len|;
      && data == (pre + [tag]) + len + (s + post) && |data| == |pre| + 1 + |len| + |s| + |post|
      && data[|pre|] == tag && data[from..from + |s|] == s && |[tag] + len + s| == 1 + |len| + |s|
  {
  }

  /** What a tag byte of one of the three fields makes the reader do. */
  lemma FieldRead(data: Bytes, i: nat, m: KVOp, tag: Byte)
    requires i < |data| && Decode(data, i) == Value(tag, i + 1) && (tag == 0x0a || tag == 0x12 || tag == 0x18)
    ensures var v := Decode(data, i + 1);
      tag == 0x18 && v.Value? ==> ReadField(data, i, m) == Field(m.(read := v.v != 0), v.next)
    ensures var r := ReadSpan(data, i + 1);
      tag != 0x18 && r.Span? ==>
        ReadField(data, i, m) == Field(if tag == 0x0a then m.(key := data[r.from..r.to]) else m.(value := data[r.from..r.to]), r.to)
  {
    hide Decode, ReadSpan, SkipFrom;
    assert ToInt32(0x0a / 8) == 1 && ToInt32(0x12 / 8) == 2 && ToInt32(0x18 / 8) == 3;
  }

  lemma BoolFieldRead(pre: Bytes, b: bool, post: Bytes, m: KVOp)
    ensures var data := pre + BoolField(0x18, b) + post;
      Parse(data, |pre|, m) == Parse(data, |pre| + |BoolField(0x18, b)|, if b then m.(read := true) else m)
  {
    hide Decode, Parse, SkipFrom;
    if b {
      var data := pre + BoolField(0x18, b) + post;
      assert data[|pre|] == 0x18 && data[|pre| + 1] == 1;
      TagByte(data, |pre|);
      TagByte(data, |pre| + 1);
      FieldRead(data, |pre|, m, 0x18);
      ParseStep(data, |pre|, m);
    }
  }

  /** What a later message overwrites: the fields it sets. */
  function Merge(a: KVOp, b: KVOp): KVOp {
    KVOp(if b.key == [] then a.key else b.key, if b.value == [] then a.value else b.value, a.read || b.read)
  }

  /** An encoded message in the middle of a buffer merges into what has been read. */
  lemma EncodedRead(pre: Bytes, x: KVOp, post: Bytes, m: KVOp)
    requires |pre| + |Encoded(x)| + |post| < TWO63
    ensures var data := pre + Encoded(x) + post;
      Parse(data, |pre|, m) == Parse(data, |pre| + |Encoded(x)|, Merge(m, x))
  {
    hide Parse, BytesField, BoolField;
    var k, v, r := BytesField(0x0a, x.key), BytesField(0x12, x.value), BoolField(0x18, x.read);
    var data := pre + Encoded(x) + post;
    var m1 := if x.key == [] then m else m.(key := x.key);
    var m2 := if x.value == [] then m1 else m1.(value := x.value);
    assert data == pre + k + (v + r + post);
    BytesFieldRead(pre, 0x0a, x.key, v + r + post, m);
    assert data == (pre + k) + v + (r + post);
    BytesFieldRead(pre + k, 0x12, x.value, r + post, m1);
    assert data == (pre + k + v) + r + post;
    BoolFieldRead(pre + k + v, x.read, post, m2);
  }

  /** Unmarshal of Marshal gives the message back. */
  lemma MessageRoundTrip(m: KVOp)
    requires |Encoded(m)| < TWO63
    ensures Unmarshal(Encoded(m)) == Parsed(m, None)
  {
    EncodedRead([], m, [], EMPTY);
    assert [] + Encoded(m) + [] == Encoded(m);
  }

  /** Two messages one after the other are read as their merge. */
  lemma ConcatenationMerges(a: KVOp, b: KVOp)
    requires |Encoded(a) + Encoded(b)| < TWO63
    ensures Unmarshal(Encoded(a) + Encoded(b)) == Parsed(Merge(a, b), None)
  {
    hide Encoded, Parse;
    var x, y := Encoded(a), Encoded(b);
    EncodedRead([], a, y, EMPTY);
    EncodedRead(x, b, [], a);
    assert [] + x + y == x + y && x + y + [] == x + y;
    assert Merge(EMPTY, a) == a;
    ParseEnd(x + y, Merge(a, b));
  }

  lemma ParseEnd(data: Bytes, m: KVOp)
    ensures Parse(data, |data|, m) == Parsed(m, None)
  {
  }

  /** So no two messages have the same encoding. */
  lemma EncodingInjective(a: KVOp, b: KVOp)
    requires |Encoded(a)| < TWO63 && Encoded(a) == Encoded(b)
    ensures a == b
  {
    MessageRoundTrip(a);
    MessageRoundTrip(b);
  }

  // ----- fields that KVOp does not know

  /** A field of any wire type, and lists of them: a group holds one. */
  datatype Unknown =
    | Number(num: nat, v: u64)
    | Eight(num: nat, bytes: Bytes)
    | Text(num: nat, bytes: Bytes)
    | Group(num: nat, inner: Fields)
    | Four(num: nat, bytes: Bytes)

  datatype Fields = Nil | Cons(head: Unknown, tail: Fields)

  function WireType(u: Unknown): nat {
    match u
    case Number(_, _) => 0
    case Eight(_, _) => 1
    case Text(_, _) => 2
    case Group(_, _) => 3
    case Four(_, _) => 5
  }

  /** Numbers fit into their tags, and fixed fields have their size. */
  predicate Writable(u: Unknown) {
    && u.num < 0x2000_0000
    && match u
       case Number(_, _) => true
       case Eight(_, b) => |b| == 8
       case Text(_, b) => |b| < TWO63
       case Group(_, inner) => AllWritable(inner)
       case Four(_, b) => |b| == 4
  }

  predicate AllWritable(us: Fields) {
    us.Nil? || (Writable(us.head) && AllWritable(us.tail))
  }

  function Wire(u: Unknown): Bytes
    requires Writable(u)
  {
    Varint(u.num * 8 + WireType(u)) + Payload(u)
  }

  /** What follows the tag; a group ends with a tag of its own. */
  function Payload(u: Unknown): Bytes
    requires Writable(u)
    decreases u, 0
  {
    match u
    case Number(_, v) => Varint(v)
    case Eight(_, b) => b
    case Text(_, b) => Varint(|b|) + b
    case Group(_, inner) => WireAll(inner) + Varint(u.num * 8 + 4)
    case Four(_, b) => b
  }

  function WireAll(us: Fields): Bytes
    requires AllWritable(us)
    decreases us, 1
  {
    if us.Nil? then [] else Varint(us.head.num * 8 + WireType(us.head)) + Payload(us.head) + WireAll(us.tail)
  }

  /** One turn of skipCommand, for a tag of any wire type. */
  lemma SkipTurn(d: Bytes, j: nat, depth: nat, tag: u64, next: nat, k: nat)
    requires j < |d| && Decode(d, j) == Value(tag, next) && SkipBody(d, next, tag % 8) == Skipped(k) && k < TWO63
    requires tag % 8 == 4 ==> depth > 0
    ensures var inner := if tag % 8 == 3 then depth + 1 else if tag % 8 == 4 then depth - 1 else depth;
      SkipFrom(d, j, depth) == if inner == 0 then Skipped(k) else SkipFrom(d, k, inner)
  {
    hide Decode, SkipBody;
  }

  /** Where the reader is after a field that it skips inside depth groups. */
  ghost predicate Passed(d: Bytes, j: nat, depth: nat, k: nat) {
    SkipFrom(d, j, depth) == if depth == 0 then Skipped(k) else SkipFrom(d, k, depth)
  }

  lemma TagAt(pre: Bytes, tag: u64, post: Bytes)
    ensures var d := pre + Varint(tag) + post; |pre| < |d| && Decode(d, |pre|) == Value(tag, |pre| + |Varint(tag)|)
  {
    hide Varint, Decode;
    RoundTrip(pre, tag, post);
  }

  lemma Cut3(pre: Bytes, a: Bytes, b: Bytes, post: Bytes)
    ensures pre + (a + b) + post == pre + a + (b + post) && pre + (a + b) + post == (pre + a) + b + post
  {
  }

  /** What a payload without groups makes the reader skip. */
  lemma PayloadSkipped(pre: Bytes, u: Unknown, post: Bytes)
    requires Writable(u) && !u.Group? && |pre| + |Payload(u)| + |post| < TWO63
    ensures var d := pre + Payload(u) + post;
      |pre| <= |d| && SkipBody(d, |pre|, WireType(u)) == Skipped(|pre| + |Payload(u)|)
  {
    hide Varint, Decode;
    var d := pre + Payload(u) + post;
    match u
    case Number(_, v) => RoundTrip(pre, v, post);
    case Text(_, b) =>
      Cut3(pre, Varint(|b|), b, post);
      RoundTrip(pre, |b|, b + post);
    case Eight(_, b) =>
    case Four(_, b) =>
  }

  /** A field is skipped as a whole, wherever it stands and in however many groups; a group with all it holds. */
  lemma {:induction false} FieldSkipped(pre: Bytes, u: Unknown, post: Bytes, depth: nat)
    requires Writable(u) && |pre| + |Wire(u)| + |post| < TWO63
    ensures Passed(pre + Wire(u) + post, |pre|, depth, |pre| + |Wire(u)|)
    decreases u, 0
  {
    hide Varint, Decode, SkipFrom, SkipBody, Payload, WireAll;
    var tag, body := u.num * 8 + WireType(u), Payload(u);
    var d, at := pre + Wire(u) + post, |pre| + |Varint(tag)|;
    Cut3(pre, Varint(tag), body, post);
    TagAt(pre, tag, body + post);
    if u.Group? {
      GroupBodyIs(d, at);
      SkipTurn(d, |pre|, depth, tag, at, at);
      var inner, end := WireAll(u.inner), Varint(u.num * 8 + 4);
      assert body == inner + end by { GroupPayload(u); }
      Cut3(pre + Varint(tag), inner, end, post);
      FieldsSkipped(pre + Varint(tag), u.inner, end + post, depth + 1);
      var last := at + |inner|;
      TagAt(pre + Varint(tag) + inner, u.num * 8 + 4, post);
      GroupBodyIs(d, last + |end|);
      SkipTurn(d, last, depth + 1, u.num * 8 + 4, last + |end|, last + |end|);
    } else {
      PayloadSkipped(pre + Varint(tag), u, post);
      SkipTurn(d, |pre|, depth, tag, at, at + |body|);
    }
  }

  lemma GroupPayload(u: Unknown)
    requires u.Group? && Writable(u)
    ensures AllWritable(u.inner) && Payload(u) == WireAll(u.inner) + Varint(u.num * 8 + 4)
  {
    hide Varint;
  }

  lemma GroupBodyIs(d: Bytes, next: nat)
    requires next <= |d|
    ensures SkipBody(d, next, 3) == SkipBody(d, next, 4) == Skipped(next)
  {
  }

  lemma {:induction false} FieldsSkipped(pre: Bytes, us: Fields, post: Bytes, depth: nat)
    requires AllWritable(us) && |pre| + |WireAll(us)| + |post| < TWO63 && depth > 0
    ensures SkipFrom(pre + WireAll(us) + post, |pre|, depth) == SkipFrom(pre + WireAll(us) + post, |pre| + |WireAll(us)|, depth)
    decreases us, 1
  {
    hide Varint, SkipFrom, Payload;
    if us.Cons? {
      var one, rest := Wire(us.head), WireAll(us.tail);
      assert WireAll(us) == one + rest;
      Cut3(pre, one, rest, post);
      FieldSkipped(pre, us.head, rest + post, depth);
      FieldsSkipped(pre + one, us.tail, post, depth);
    }
  }

  /** A field that KVOp does not know is skipped, whatever its wire type and however deep its groups. */
  lemma UnknownFieldSkipped(pre: Bytes, u: Unknown, post: Bytes, m: KVOp)
    requires Writable(u) && u.num >= 4 && |pre| + |Wire(u)| + |post| < TWO63
    ensures var data := pre + Wire(u) + post;
      Parse(data, |pre|, m) == Parse(data, |pre| + |Wire(u)|, m)
  {
    hide Varint, Decode, Parse, SkipFrom, Payload;
    var tag := u.num * 8 + WireType(u);
    var data := pre + Wire(u) + post;
    Cut3(pre, Varint(tag), Payload(u), post);
    TagAt(pre, tag, Payload(u) + post);
    FieldSkipped([], u, post, 0);
    assert data[|pre|..] == [] + Wire(u) + post;
    UnknownRead(data, |pre|, m, tag, |pre| + |Varint(tag)|, |Wire(u)|);
    ParseStep(data, |pre|, m);
  }

  lemma UnknownRead(data: Bytes, i: nat, m: KVOp, tag: nat, next: nat, n: nat)
    requires i < |data| < TWO63 && tag < TWO64 && Decode(data, i) == Value(tag, next)
    requires 4 <= tag / 8 < 0x2000_0000 && tag % 8 != 4 && i + n <= |data|
    requires SkipFrom(data[i..], 0, 0) == Skipped(n)
    ensures ReadField(data, i, m) == Field(m, i + n)
  {
    hide Decode, SkipFrom, ReadSpan;
    assert ToInt32(tag / 8) == tag / 8;
  }
}
