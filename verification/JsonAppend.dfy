/**
 Writing JSON text into a byte buffer taken from a pool: whole objects key by
 key, and one more member at the end of an existing object. The buffer is
 longer than asked for and full of old data.
 */
module JsonAppend {
  import opened Common

  const OPEN: byte := 123
  const CLOSE: byte := 125
  const QUOTE: byte := 34
  const COLON: byte := 58
  const COMMA: byte := 44

  /** Go's copy: as much of the source as fits behind the position. */
  function CopyInto(dest: Bytes, at: nat, source: Bytes): (r: Bytes)
    requires at <= |dest|
    ensures |r| == |dest|
  {
    if at + |source| <= |dest| then dest[..at] + source + dest[at + |source|..]
    else dest[..at] + source[..|dest| - at]
  }

  /** Copies in place, forwards. */
  method Copy(a: array<byte>, at: nat, source: Bytes)
    requires at <= a.Length
    modifies a
    ensures a[..] == CopyInto(old(a[..]), at, source)
  {
    var n := if |source| <= a.Length - at then |source| else a.Length - at;
    var i := 0;
    while i < n
      invariant 0 <= i <= n
      invariant forall k :: 0 <= k < a.Length ==>
                  a[k] == if at <= k < at + i then source[k - at] else old(a[k])
    {
      a[at + i] := source[i];
      i := i + 1;
    }
    assert a[..] == CopyInto(old(a[..]), at, source);
  }

  // -------------------------------------------------------------------------
  // One key or value

  function KeyText(key: Bytes, first: bool): (r: Bytes)
    ensures |r| == |key| + 4
  {
    [if first then OPEN else COMMA] + [QUOTE] + key + [QUOTE] + [COLON]
  }

  function Quoted(value: Bytes, quotes: bool): (r: Bytes)
    ensures |r| == |value| + (if quotes then 2 else 0)
  {
    if quotes then [QUOTE] + value + [QUOTE] else value
  }

  /** A value is written with the closing bracket behind it, which a next key overwrites. */
  function ValueText(value: Bytes, quotes: bool): Bytes { Quoted(value, quotes) + [CLOSE] }

  /** A stretch of the buffer is replaced. */
  function Patched(s: Bytes, at: nat, text: Bytes): (r: Bytes)
    requires at + |text| <= |s|
    ensures |r| == |s|
  {
    seq(|s|, i requires 0 <= i < |s| => if at <= i < at + |text| then text[i - at] else s[i])
  }

  lemma PatchTwice(s: Bytes, at: nat, a: Bytes, b: Bytes)
    requires at + |a| + |b| <= |s|
    ensures Patched(Patched(s, at, a), at + |a|, b) == Patched(s, at, a + b)
  {
    var p, q := Patched(Patched(s, at, a), at + |a|, b), Patched(s, at, a + b);
    assert forall i :: 0 <= i < |s| ==> p[i] == q[i];
  }

  /** A patched buffer in three parts. */
  lemma PatchedParts(s: Bytes, at: nat, text: Bytes)
    requires at + |text| <= |s|
    ensures Patched(s, at, text) == s[..at] + text + s[at + |text|..]
  {
    var p, q := Patched(s, at, text), s[..at] + text + s[at + |text|..];
    assert forall i :: 0 <= i < |s| ==> p[i] == q[i];
  }

  method PutByte(a: array<byte>, pos: nat, c: byte) returns (next: nat)
    requires pos < a.Length
    modifies a
    ensures next == pos + 1 && a[..] == Patched(old(a[..]), pos, [c])
  {
    a[pos] := c;
    next := pos + 1;
  }

  method PutBytes(a: array<byte>, pos: nat, bytes: Bytes) returns (next: nat)
    requires pos + |bytes| <= a.Length
    modifies a
    ensures next == pos + |bytes| && a[..] == Patched(old(a[..]), pos, bytes)
  {
    PatchedParts(a[..], pos, bytes);
    Copy(a, pos, bytes);
    next := pos + |bytes|;
  }

  /** The punctuation before and behind the bytes. */
  function Opening(isKey: bool, quotes: bool, first: bool): Bytes {
    if isKey then [if first then OPEN else COMMA, QUOTE] else if quotes then [QUOTE] else []
  }

  function Closing(isKey: bool, quotes: bool): Bytes {
    if isKey then [QUOTE, COLON] else if quotes then [QUOTE, CLOSE] else [CLOSE]
  }

  /** One key or one value with its punctuation. */
  function RawText(bytes: Bytes, isKey: bool, quotes: bool, first: bool): (r: Bytes)
    ensures |r| == |Opening(isKey, quotes, first)| + |bytes| + |Closing(isKey, quotes)|
  {
    Opening(isKey, quotes, first) + bytes + Closing(isKey, quotes)
  }

  lemma KeyOrValue(bytes: Bytes, isKey: bool, quotes: bool, first: bool)
    ensures RawText(bytes, isKey, quotes, first) == if isKey then KeyText(bytes, first) else ValueText(bytes, quotes)
  {
  }

  /** Go's copy, byte by byte. */
  function Overlaid(dest: Bytes, at: nat, source: Bytes): (r: Bytes)
    ensures |r| == |dest|
  {
    seq(|dest|, i requires 0 <= i < |dest| => if at <= i < at + |source| then source[i - at] else dest[i])
  }

  lemma OverlaidIsCopied(dest: Bytes, at: nat, source: Bytes)
    requires at <= |dest|
    ensures CopyInto(dest, at, source) == Overlaid(dest, at, source)
  {
    var p, q := CopyInto(dest, at, source), Overlaid(dest, at, source);
    assert forall i :: 0 <= i < |dest| ==> p[i] == q[i];
  }

  method Overlay(a: array<byte>, at: nat, source: Bytes)
    requires at <= a.Length
    modifies a
    ensures a[..] == Overlaid(old(a[..]), at, source)
  {
    OverlaidIsCopied(a[..], at, source);
    Copy(a, at, source);
  }

  /** What is left of the bytes behind the part that was meant and the punctuation after it. */
  function Spill(bytes: Bytes, size: nat, closing: Bytes): Bytes {
    if size + |closing| <= |bytes| then bytes[size + |closing|..] else []
  }

  /** The steps of WriteJsonRawMsg: punctuation, all of the bytes, punctuation where the meant part ends. */
  function WithRaw(s: Bytes, pos: nat, opening: Bytes, bytes: Bytes, size: nat, closing: Bytes): Bytes
    requires pos + |opening| + size + |closing| <= |s|
  {
    Patched(Overlaid(Patched(s, pos, opening), pos + |opening|, bytes), pos + |opening| + size, closing)
  }

  /** The byte at place `i` after these steps. */
  function RawByte(s: Bytes, pos: nat, opening: Bytes, bytes: Bytes, size: nat, closing: Bytes, i: nat): byte
    requires size <= |bytes| && i < |s|
  {
    var start := pos + |opening|;
    if i < pos then s[i]
    else if i < start then opening[i - pos]
    else if i < start + size then bytes[i - start]
    else if i < start + size + |closing| then closing[i - start - size]
    else if i < start + |bytes| then bytes[i - start]
    else s[i]
  }

  lemma WithRawAt(s: Bytes, pos: nat, opening: Bytes, bytes: Bytes, size: nat, closing: Bytes, i: nat)
    requires pos + |opening| + size + |closing| <= |s| && size <= |bytes| && i < |s|
    ensures WithRaw(s, pos, opening, bytes, size, closing)[i] == RawByte(s, pos, opening, bytes, size, closing, i)
  {
  }

  /** The text of the meant part, byte by byte. */
  predicate IsText(text: Bytes, opening: Bytes, bytes: Bytes, size: nat, closing: Bytes)
    requires size <= |bytes|
  {
    && |text| == |opening| + size + |closing|
    && (forall k :: 0 <= k < |opening| ==> text[k] == opening[k])
    && (forall k :: |opening| <= k < |opening| + size ==> text[k] == bytes[k - |opening|])
    && (forall k :: |opening| + size <= k < |text| ==> text[k] == closing[k - |opening| - size])
  }

  lemma SpilledAt(s: Bytes, pos: nat, text: Bytes, opening: Bytes, bytes: Bytes, size: nat, closing: Bytes, i: nat)
    requires size <= |bytes| && i < |s| && IsText(text, opening, bytes, size, closing) && pos + |text| <= |s|
    ensures Overlaid(Patched(s, pos, text), pos + |text|, Spill(bytes, size, closing))[i] ==
            RawByte(s, pos, opening, bytes, size, closing, i)
  {
  }

  lemma PartsAreText(opening: Bytes, bytes: Bytes, size: nat, closing: Bytes)
    requires size <= |bytes|
    ensures IsText(opening + bytes[..size] + closing, opening, bytes, size, closing)
  {
  }

  lemma SameAt(s: Bytes, pos: nat, text: Bytes, opening: Bytes, bytes: Bytes, size: nat, closing: Bytes, i: nat)
    requires size <= |bytes| && i < |s| && IsText(text, opening, bytes, size, closing) && pos + |text| <= |s|
    ensures WithRaw(s, pos, opening, bytes, size, closing)[i] ==
            Overlaid(Patched(s, pos, text), pos + |text|, Spill(bytes, size, closing))[i]
  {
    WithRawAt(s, pos, opening, bytes, size, closing, i);
    SpilledAt(s, pos, text, opening, bytes, size, closing, i);
  }

  /** They write the text of the meant part, and the bytes behind it, as far as they fit, behind that. */
  lemma RawSpills(s: Bytes, pos: nat, text: Bytes, opening: Bytes, bytes: Bytes, size: nat, closing: Bytes)
    requires size <= |bytes| && text == opening + bytes[..size] + closing && pos + |text| <= |s|
    ensures WithRaw(s, pos, opening, bytes, size, closing) ==
            Overlaid(Patched(s, pos, text), pos + |text|, Spill(bytes, size, closing))
  {
    PartsAreText(opening, bytes, size, closing);
    var p := WithRaw(s, pos, opening, bytes, size, closing);
    var q := Overlaid(Patched(s, pos, text), pos + |text|, Spill(bytes, size, closing));
    forall i: nat | i < |s| ensures p[i] == q[i] { SameAt(s, pos, text, opening, bytes, size, closing, i); }
  }

  /** Bytes of the meant size leave nothing behind the text. */
  lemma NothingSpills(s: Bytes, pos: nat, text: Bytes)
    requires pos + |text| <= |s|
    ensures Overlaid(Patched(s, pos, text), pos + |text|, []) == Patched(s, pos, text)
  {
  }

  method PutRaw(a: array<byte>, bytes: Bytes, pos: nat, opening: Bytes, size: nat, closing: Bytes)
    requires pos + |opening| + size + |closing| <= a.Length
    modifies a
    ensures a[..] == WithRaw(old(a[..]), pos, opening, bytes, size, closing)
  {
    var next := PutBytes(a, pos, opening);
    Overlay(a, next, bytes);
    next := PutBytes(a, next + size, closing);
  }

  /** Writes a key or a value with its punctuation at a position. The bytes may be longer than the size meant, as a
      slice from a pool is: then the rest of them is found behind the text. For a value the position returned is that of
      the bracket. */
  method WriteJsonRawMsg(a: array<byte>, bytes: Bytes, pos: nat, isKey: bool, size: nat, quotes: bool, first: bool)
      returns (next: nat)
    requires size <= |bytes| && pos + |RawText(bytes[..size], isKey, quotes, first)| <= a.Length
    modifies a
    ensures var text := RawText(bytes[..size], isKey, quotes, first);
            && a[..] == Overlaid(Patched(old(a[..]), pos, text), pos + |text|,
                                 Spill(bytes, size, Closing(isKey, quotes)))
            && next == pos + |text| - (if isKey then 0 else 1)
  {
    var opening, closing := Opening(isKey, quotes, first), Closing(isKey, quotes);
    RawSpills(a[..], pos, RawText(bytes[..size], isKey, quotes, first), opening, bytes, size, closing);
    PutRaw(a, bytes, pos, opening, size, closing);
    next := pos + |opening| + size + |closing| - if isKey then 0 else 1;
  }

  /** The same with bytes of the meant size: exactly the text, and nothing else is touched. */
  method WriteWhole(a: array<byte>, bytes: Bytes, pos: nat, isKey: bool, quotes: bool, first: bool) returns (next: nat)
    requires pos + |RawText(bytes, isKey, quotes, first)| <= a.Length
    modifies a
    ensures a[..] == Patched(old(a[..]), pos, RawText(bytes, isKey, quotes, first))
    ensures next == pos + |RawText(bytes, isKey, quotes, first)| - (if isKey then 0 else 1)
  {
    NothingSpills(a[..], pos, RawText(bytes, isKey, quotes, first));
    assert bytes[..|bytes|] == bytes && Spill(bytes, |bytes|, Closing(isKey, quotes)) == [];
    next := WriteJsonRawMsg(a, bytes, pos, isKey, |bytes|, quotes, first);
  }

  method WriteKey(a: array<byte>, key: Bytes, pos: nat, first: bool) returns (next: nat)
    requires pos + |KeyText(key, first)| <= a.Length
    modifies a
    ensures next == pos + |KeyText(key, first)| && a[..] == Patched(old(a[..]), pos, KeyText(key, first))
  {
    KeyOrValue(key, true, false, first);
    next := WriteWhole(a, key, pos, true, false, first);
  }

  /** Writes a value and a closing bracket; the position returned is that of the bracket. */
  method WriteValue(a: array<byte>, value: Bytes, pos: nat, quotes: bool) returns (next: nat)
    requires pos + |ValueText(value, quotes)| <= a.Length
    modifies a
    ensures next + 1 == pos + |ValueText(value, quotes)| && a[..] == Patched(old(a[..]), pos, ValueText(value, quotes))
  {
    KeyOrValue(value, false, quotes, false);
    next := WriteWhole(a, value, pos, false, quotes, false);
  }

  // -------------------------------------------------------------------------
  // Whole objects

  datatype Member = Member(key: Bytes, value: Bytes, quotes: bool)

  function MemberText(m: Member, first: bool): Bytes { KeyText(m.key, first) + Quoted(m.value, m.quotes) }

  /** The members of an object, separated by commas, without the closing bracket. */
  function Opened(ms: seq<Member>): Bytes {
    if ms == [] then [] else Opened(ms[..|ms| - 1]) + MemberText(ms[|ms| - 1], |ms| == 1)
  }

  function ObjectText(ms: seq<Member>): Bytes { Opened(ms) + [CLOSE] }

  lemma {:induction false} OpenedGrows(ms: seq<Member>, n: nat)
    requires n <= |ms|
    ensures |Opened(ms[..n])| <= |Opened(ms)|
  {
    if n == |ms| {
      assert ms[..n] == ms;
    } else {
      OpenedGrows(ms[..|ms| - 1], n);
      assert ms[..|ms| - 1][..n] == ms[..n];
    }
  }

  /** One member at a position: the bracket there, if any, becomes a comma, and a new one is written. */
  method WriteMember(a: array<byte>, m: Member, pos: nat) returns (next: nat)
    requires pos + |MemberText(m, pos == 0)| + 1 <= a.Length
    modifies a
    ensures next == pos + |MemberText(m, pos == 0)|
    ensures a[..] == Patched(old(a[..]), pos, MemberText(m, pos == 0) + [CLOSE])
  {
    ghost var before := a[..];
    var mid := WriteKey(a, m.key, pos, pos == 0);
    next := WriteValue(a, m.value, mid, m.quotes);
    PatchTwice(before, pos, KeyText(m.key, pos == 0), ValueText(m.value, m.quotes));
    assert KeyText(m.key, pos == 0) + ValueText(m.value, m.quotes) == MemberText(m, pos == 0) + [CLOSE];
  }

  /** The buffer after the first n members. */
  ghost predicate Written(before: Bytes, now: Bytes, ms: seq<Member>, n: nat) {
    && n <= |ms| && |now| == |before| && |Opened(ms[..n])| < |before|
    && now == if n == 0 then before else Patched(before, 0, Opened(ms[..n]) + [CLOSE])
  }

  lemma WrittenNext(before: Bytes, now: Bytes, ms: seq<Member>, n: nat)
    requires n < |ms| && Written(before, now, ms, n) && |ObjectText(ms)| <= |before|
    ensures var text := MemberText(ms[n], n == 0) + [CLOSE];
            && |Opened(ms[..n])| + |text| <= |before|
            && |Opened(ms[..n + 1])| + 1 == |Opened(ms[..n])| + |text|
            && Written(before, Patched(now, |Opened(ms[..n])|, text), ms, n + 1)
  {
    assert ms[..n + 1][..n] == ms[..n];
    OpenedGrows(ms, n + 1);
    var text := MemberText(ms[n], n == 0) + [CLOSE];
    OverBracket(before, now, Opened(ms[..n]), text, n > 0);
    assert Opened(ms[..n + 1]) + [CLOSE] == Opened(ms[..n]) + text;
  }

  lemma OpenedPositive(ms: seq<Member>)
    ensures ms == [] <==> |Opened(ms)| == 0
  {
  }

  /** Writing members one after the other from position 0 leaves the object's text at the front of the buffer,
      and nothing behind it is touched. */
  method WriteObject(a: array<byte>, ms: seq<Member>) returns (pos: nat)
    requires ms != [] && |ObjectText(ms)| <= a.Length
    modifies a
    ensures pos + 1 == |ObjectText(ms)| && a[..] == Patched(old(a[..]), 0, ObjectText(ms))
  {
    ghost var before := a[..];
    pos := 0;
    var n := 0;
    while n < |ms|
      invariant 0 <= n <= |ms| && Written(before, a[..], ms, n) && pos == |Opened(ms[..n])|
    {
      OpenedPositive(ms[..n]);
      WrittenNext(before, a[..], ms, n);
      pos := WriteMember(a, ms[n], pos);
      n := n + 1;
    }
    assert ms[..n] == ms;
  }

  /** Text put where the closing bracket was continues the text before it. */
  lemma OverBracket(before: Bytes, last: Bytes, text: Bytes, more: Bytes, closed: bool)
    requires |before| == |last| && |text| + |more| <= |before| && |more| >= 1
    requires if closed then last == Patched(before, 0, text + [CLOSE]) else last == before && text == []
    ensures Patched(last, |text|, more) == Patched(before, 0, text + more)
  {
    var p, q := Patched(last, |text|, more), Patched(before, 0, text + more);
    assert forall i :: 0 <= i < |before| ==> p[i] == q[i];
  }

  // -------------------------------------------------------------------------
  // One more member for an existing body

  datatype Outcome = InvalidInput | NoBuffer | Panic | Done(pos: nat)

  datatype Pool = Empty | Gives(buffer: array<byte>)

  /** A comma in place of the closing bracket, the key, the value, and a bracket again. */
  function Appended(key: Bytes, value: Bytes, quotes: bool): Bytes { KeyText(key, false) + ValueText(value, quotes) }

  lemma FrontOfAppended(old0: Bytes, body: Bytes, at: nat, text: Bytes)
    requires at <= |body| && at + |text| <= |old0|
    ensures Patched(CopyInto(old0, 0, body), at, text)[..at + |text|] == body[..at] + text
  {
    var copied := CopyInto(old0, 0, body);
    PatchedParts(copied, at, text);
    assert copied[..at] == body[..at];
  }

  /** With the position behind the body, what the buffer held before stands between them. */
  lemma StaleBeforeAppended(old0: Bytes, body: Bytes, at: nat, text: Bytes)
    requires |body| <= at && at + |text| <= |old0|
    ensures Patched(CopyInto(old0, 0, body), at, text)[..at + |text|] == body + old0[|body|..at] + text
  {
    var copied := CopyInto(old0, 0, body);
    PatchedParts(copied, at, text);
    assert copied[..at] == body + old0[|body|..at];
  }

  method WriteAppended(a: array<byte>, key: Bytes, value: Bytes, quotes: bool, at: nat) returns (pos: nat)
    requires at > 0 && at + |Appended(key, value, quotes)| <= a.Length
    modifies a
    ensures pos + 1 == at + |Appended(key, value, quotes)| &&
            a[..] == Patched(old(a[..]), at, Appended(key, value, quotes))
  {
    PatchTwice(a[..], at, KeyText(key, false), ValueText(value, quotes));
    pos := WriteKey(a, key, at, at == 0);
    pos := WriteValue(a, value, pos, quotes);
  }

  /** Copies the body into the pool's buffer and writes the member over the closing bracket. Writing behind the
      end of the buffer is a panic. */
  method AppendSingleKV(body: Bytes, key: Bytes, value: Bytes, quotes: bool, endBracket: int, pool: Pool)
      returns (r: Outcome)
    modifies if pool.Gives? then {pool.buffer} else {}
    ensures r.InvalidInput? <==> endBracket <= 0
    ensures r.NoBuffer? <==> endBracket > 0 && pool.Empty?
    ensures r.Panic? <==>
            endBracket > 0 && pool.Gives? && endBracket + |Appended(key, value, quotes)| > pool.buffer.Length
    ensures r.Done? ==> r.pos + 1 == endBracket + |Appended(key, value, quotes)|
    ensures r.Done? ==>
              pool.buffer[..] ==
              Patched(CopyInto(old(pool.buffer[..]), 0, body), endBracket, Appended(key, value, quotes))
  {
    if endBracket <= 0 {
      return InvalidInput;
    }
    if pool.Empty? {
      return NoBuffer;
    }
    var a := pool.buffer;
    Copy(a, 0, body);
    if endBracket + |Appended(key, value, quotes)| > a.Length {
      return Panic;
    }
    var pos := WriteAppended(a, key, value, quotes, endBracket);
    r := Done(pos);
  }

  /** What is asked of the pool for a key to be filtered on. */
  function SizeToGet(name: Bytes, key: Bytes, body: Bytes): nat { |name| + |key| + 6 + |body| }

  /** A buffer of the size asked for always suffices exactly when the end bracket lies inside the body. */
  lemma SizeSufficesIff(name: Bytes, key: Bytes, body: Bytes, endBracket: nat)
    ensures endBracket + |Appended(name, key, true)| <= SizeToGet(name, key, body) <==> endBracket < |body|
  {
  }

  /** The bytes from a position on, copied some places further back as far as they fit. */
  function Shifted(s: Bytes, pos: nat, gap: nat): (r: Bytes)
    requires pos + gap <= |s|
    ensures |r| == |s|
  {
    CopyInto(s, pos + gap, s[pos..])
  }

  /** Go's append, and two copies that make room in the middle. */
  function CleanInsert(dest: Bytes, ins: Bytes, pos: nat): Bytes
    requires pos < |dest|
  {
    CopyInto(Shifted(dest + ins, pos, |ins|), pos, ins)
  }

  lemma {:induction false} CleanInsertInserts(dest: Bytes, ins: Bytes, pos: nat)
    requires pos < |dest|
    ensures CleanInsert(dest, ins, pos) == dest[..pos] + ins + dest[pos..]
  {
    var longer := dest + ins;
    var moved := CopyInto(longer, pos + |ins|, longer[pos..]);
    assert ins != [] ==> moved == longer[..pos + |ins|] + longer[pos..][..|longer| - pos - |ins|];
    assert ins == [] ==> moved == longer[..pos] + longer[pos..];
    assert moved[pos + |ins|..] == dest[pos..];
    assert moved[..pos] == dest[..pos];
  }

  lemma CopyWithin(d: Bytes, n: nat, at: nat, source: Bytes)
    requires at + |source| <= n <= |d|
    ensures CopyInto(d, at, source)[..n] == CopyInto(d[..n], at, source)
  {
  }

  /** Go copies as much as fits, here all but the last part. */
  lemma CopyTruncated(d: Bytes, at: nat, from: nat)
    requires from <= at <= |d|
    ensures CopyInto(d, at, d[from..]) == CopyInto(d, at, d[from..from + (|d| - at)])
  {
  }

  /** A copy inside the first n bytes. */
  method CopyPart(dest: array<byte>, n: nat, at: nat, source: Bytes)
    requires at + |source| <= n <= dest.Length
    modifies dest
    ensures dest[..n] == CopyInto(old(dest[..n]), at, source)
  {
    CopyWithin(dest[..], n, at, source);
    Copy(dest, at, source);
  }

  method AppendInPlace(dest: array<byte>, len: nat, ins: Bytes)
    requires len + |ins| <= dest.Length
    modifies dest
    ensures dest[..len + |ins|] == old(dest[..len]) + ins
  {
    Copy(dest, len, ins);
  }

  /** Moves the bytes from a position on back, over the end of the slice. */
  method MoveBack(dest: array<byte>, n: nat, pos: nat, gap: nat)
    requires pos + gap <= n <= dest.Length
    modifies dest
    ensures dest[..n] == Shifted(old(dest[..n]), pos, gap)
  {
    CopyTruncated(dest[..n], pos + gap, pos);
    CopyPart(dest, n, pos + gap, dest[..n][pos..pos + (n - (pos + gap))]);
  }

  /** The append and the two copies, in an array with room for the result. */
  method InsertInPlace(dest: array<byte>, len: nat, ins: Bytes, pos: nat)
    requires pos < len && len + |ins| <= dest.Length
    modifies dest
    ensures dest[..len + |ins|] == CleanInsert(old(dest[..len]), ins, pos)
  {
    MakeRoom(dest, len, ins, pos);
    CopyPart(dest, len + |ins|, pos, ins);
  }

  method MakeRoom(dest: array<byte>, len: nat, ins: Bytes, pos: nat)
    requires pos < len && len + |ins| <= dest.Length
    modifies dest
    ensures dest[..len + |ins|] == Shifted(old(dest[..len]) + ins, pos, |ins|)
  {
    AppendInPlace(dest, len, ins);
    MoveBack(dest, len + |ins|, pos, |ins|);
  }

  /** CleanInsert on a slice: the first `len` bytes of its backing array. With room behind the slice, append and the two
      copies write into the caller's array; without, into a new one, and the caller's bytes stay. */
  method CleanInsertSlice(a: array<byte>, len: nat, ins: Bytes, pos: int) returns (r: Option<array<byte>>)
    requires len <= a.Length
    modifies a
    ensures r.Some? <==> 0 <= pos < len
    ensures r.Some? ==> r.value.Length >= len + |ins| && r.value[..len + |ins|] == CleanInsert(old(a[..len]), ins, pos)
    ensures r.Some? ==> (r.value == a <==> len + |ins| <= a.Length)
    ensures r.None? || len + |ins| > a.Length ==> a[..] == old(a[..])
  {
    if pos < 0 || pos >= len {
      return None;
    }
    var dest := a;
    if len + |ins| > a.Length {
      dest := Enlarged(a, len, len + |ins|);
    }
    InsertInPlace(dest, len, ins, pos);
    r := Some(dest);
  }

  method Enlarged(a: array<byte>, len: nat, n: nat) returns (dest: array<byte>)
    requires len <= a.Length && len <= n
    ensures fresh(dest) && dest.Length == n && dest[..len] == a[..len]
  {
    dest := new byte[n](_ => 0);
    Copy(dest, 0, a[..len]);
  }

  /** The caller's body, read through its own slice afterwards, is unchanged exactly when there was no room behind
      it, or the bytes that moved in are those that were there. */
  lemma CallerKeepsBody(body: Bytes, ins: Bytes, pos: nat)
    requires pos < |body|
    ensures CleanInsert(body, ins, pos)[..|body|] == body <==> (ins + body[pos..])[..|body| - pos] == body[pos..]
  {
    CleanInsertInserts(body, ins, pos);
    var all := body[..pos] + (ins + body[pos..]);
    assert CleanInsert(body, ins, pos) == all;
    assert all[..|body|] == body[..pos] + (ins + body[pos..])[..|body| - pos];
    assert body == body[..pos] + body[pos..];
    assert all[..|body|][pos..] == (ins + body[pos..])[..|body| - pos];
  }

  datatype Filtered = Ok(bytes: Bytes) | Bad(bytes: Bytes) | Crash

  /** The key goes in as the first member when there is no usable buffer. */
  function WithoutPool(body: Bytes, name: Bytes, key: Bytes): Filtered {
    if body == [] then Crash
    else if body[0] != OPEN then Bad(body)
    else if |body| == 1 then Bad([])
    else Ok(CleanInsert(body, [QUOTE] + name + [QUOTE, COLON, QUOTE] + key + [QUOTE, COMMA], 1))
  }

  lemma {:induction false} WithoutPoolInserts(body: Bytes, name: Bytes, key: Bytes)
    requires |body| > 1 && body[0] == OPEN
    ensures WithoutPool(body, name, key) ==
            Ok(MemberText(Member(name, key, true), true) + [COMMA] + body[1..])
  {
    var ins := [QUOTE] + name + [QUOTE, COLON, QUOTE] + key + [QUOTE, COMMA];
    CleanInsertInserts(body, ins, 1);
    assert body[..1] + ins == MemberText(Member(name, key, true), true) + [COMMA];
  }

  /** Exactly when the key is not put in, and what is returned then: the body itself if it is not an object, nothing if
      it is only a bracket, and an empty body is a panic. */
  lemma RejectedIff(body: Bytes, name: Bytes, key: Bytes)
    ensures var r := WithoutPool(body, name, key);
            && (r.Crash? <==> body == [])
            && (r.Ok? <==> |body| > 1 && body[0] == OPEN)
            && (r.Bad? ==> r.bytes == if body[0] == OPEN then [] else body)
  {
  }

  /** The front of the buffer after the member was put at `at`: behind the body comes what the buffer held before. */
  function FrontText(before: Bytes, body: Bytes, at: nat, text: Bytes): Bytes
    requires at + |text| <= |before|
  {
    (if at <= |body| then body[..at] else body + before[|body|..at]) + text
  }

  lemma FrontIsText(before: Bytes, body: Bytes, at: nat, text: Bytes)
    requires at + |text| <= |before|
    ensures Patched(CopyInto(before, 0, body), at, text)[..at + |text|] == FrontText(before, body, at, text)
  {
    if at <= |body| { FrontOfAppended(before, body, at, text); } else { StaleBeforeAppended(before, body, at, text); }
  }

  /** Adds the document key to its body. With a pool that gives at least what is asked for, and an end bracket
      inside the body, there is no panic and the text is exact whatever the buffer held. An end bracket behind the body
      is a panic if the member does not fit the buffer, and otherwise leaves old bytes in the text. */
  method AddKeyToBeFiltered(body: Bytes, name: Bytes, key: Bytes, pool: Pool, endBody: int) returns (r: Filtered)
    requires pool.Gives? ==> pool.buffer.Length >= SizeToGet(name, key, body)
    modifies if pool.Gives? then {pool.buffer} else {}
    ensures endBody <= 0 || pool.Empty? ==> r == WithoutPool(body, name, key)
    ensures 0 < endBody && pool.Gives? ==>
              var text := Appended(name, key, true);
              if endBody + |text| > pool.buffer.Length then r.Crash? && endBody >= |body|
              else r == Ok(pool.buffer[..]) &&
                   pool.buffer[..endBody + |text|] == FrontText(old(pool.buffer[..]), body, endBody, text)
  {
    if endBody > 0 {
      ghost var text := Appended(name, key, true);
      SizeSufficesIff(name, key, body, endBody);
      var out := AppendSingleKV(body, name, key, true, endBody, pool);
      match out {
        case Done(pos) =>
          FrontIsText(old(pool.buffer[..]), body, endBody, text);
          assert pool.buffer[..endBody + |text|] == pool.buffer[..][..endBody + |text|];
          return Ok(pool.buffer[..]);
        case Panic =>
          return Crash;
        case NoBuffer =>
        case InvalidInput =>
      }
    }
    r := WithoutPool(body, name, key);
  }

  // -------------------------------------------------------------------------
  // A body that is only the key

  function KeyOnlyText(name: Bytes, key: Bytes): Bytes { ObjectText([Member(name, key, true)]) }

  /** The key in quotes at the front of a pooled slice. */
  method PutKey(slice: array<byte>, key: Bytes)
    requires slice.Length >= |key| + 2
    modifies slice
    ensures slice[..] == Patched(old(slice[..]), 0, Quoted(key, true))
  {
    ghost var s := slice[..];
    PatchTwice(s, 0, [QUOTE], key);
    PatchTwice(s, 0, [QUOTE] + key, [QUOTE]);
    var pos := PutByte(slice, 0, QUOTE);
    pos := PutBytes(slice, pos, key);
    pos := PutByte(slice, pos, QUOTE);
  }

  lemma PrefixOfPatched(s: Bytes, text: Bytes)
    requires |text| <= |s|
    ensures Patched(s, 0, text)[..|text|] == text
  {
  }

  lemma FrontOfOverlaid(dest: Bytes, at: nat, source: Bytes, n: nat)
    requires n <= at <= |dest|
    ensures Overlaid(dest, at, source)[..n] == dest[..n]
  {
  }

  lemma KeyOnlyParts(name: Bytes, key: Bytes)
    ensures KeyOnlyText(name, key) ==
            KeyText(name, true) + RawText(Quoted(key, true), false, false, false)
    ensures |KeyOnlyText(name, key)| == |key| + 2 + |name| + 5
  {
    var m := Member(name, key, true);
    KeyOrValue(Quoted(key, true), false, false, false);
    assert [m][..0] == [] && Opened([]) == [];
    assert Opened([m]) == [] + MemberText(m, true);
    assert ([] + MemberText(m, true)) + [CLOSE] ==
           KeyText(name, true) + ValueText(Quoted(key, true), false);
  }

  /** The buffer after the key and the value, whatever is found behind them. */
  lemma KeyThenValue(s: Bytes, keyText: Bytes, valueText: Bytes, spill: Bytes)
    requires |keyText| + |valueText| <= |s|
    ensures Overlaid(Patched(Patched(s, 0, keyText), |keyText|, valueText), |keyText| + |valueText|, spill)
              [..|keyText| + |valueText|] == keyText + valueText
  {
    PatchTwice(s, 0, keyText, valueText);
    PrefixOfPatched(s, keyText + valueText);
    FrontOfOverlaid(Patched(s, 0, keyText + valueText), |keyText| + |valueText|, spill, |keyText| + |valueText|);
  }

  /** processKeyOnlyForFiltering with two slices from the pool, each at least as long as asked for: whatever they held,
      the body starts with the object that has the key as its only member. */
  method ProcessKeyOnly(name: Bytes, key: Bytes, slice: array<byte>, body: array<byte>)
    requires slice != body && slice.Length >= |key| + 2 && body.Length >= |key| + 2 + |name| + 5
    modifies slice, body
    ensures |KeyOnlyText(name, key)| <= body.Length && body[..][..|KeyOnlyText(name, key)|] == KeyOnlyText(name, key)
  {
    PutKey(slice, key);
    PrefixOfPatched(old(slice[..]), Quoted(key, true));
    KeyOnlyParts(name, key);
    var bytes := slice[..];
    assert bytes[..|key| + 2] == Quoted(key, true);
    ghost var valueText := RawText(Quoted(key, true), false, false, false);
    KeyThenValue(body[..], KeyText(name, true), valueText, Spill(bytes, |key| + 2, Closing(false, false)));
    var pos := WriteKey(body, name, 0, true);
    pos := WriteJsonRawMsg(body, bytes, pos, false, |key| + 2, false, false);
  }
}
