/**
 What the bytes that are written for a filter mean: a reader of JSON objects, written down independently of the writer,
 gets the members back that were put in, whatever old bytes follow in the buffer.
 */
module JsonText {
  import opened Common
  import opened JsonAppend

  /** The first place of a byte that ends something, or the end. */
  function Find(s: Bytes, ends: set<byte>): (k: nat)
    ensures k <= |s|
  {
    if s == [] || s[0] in ends then 0 else 1 + Find(s[1..], ends)
  }

  datatype Read = NoMember | Got(member: Member, rest: Bytes)

  /** A value: in quotes, or up to what ends it. */
  function ReadValue(key: Bytes, s: Bytes): Read {
    if s == [] then NoMember
    else if s[0] == QUOTE then
      var k := Find(s[1..], {QUOTE});
      if k < |s| - 1 then Got(Member(key, s[1..][..k], true), s[1..][k + 1..]) else NoMember
    else
      var k := Find(s, {QUOTE, COMMA, CLOSE});
      if 0 < k < |s| && s[k] != QUOTE then Got(Member(key, s[..k], false), s[k..]) else NoMember
  }

  /** A key behind the quote that opens it, a colon and a value. */
  function ReadKey(s: Bytes): Read {
    var k := Find(s, {QUOTE});
    if k + 1 < |s| && s[k + 1] == COLON then ReadValue(s[..k], s[k + 2..]) else NoMember
  }

  /** A member with the bracket or comma before it. */
  function ReadMember(s: Bytes, first: bool): (r: Read)
    ensures r.Got? ==> |r.rest| < |s|
  {
    if |s| >= 2 && s[0] == (if first then OPEN else COMMA) && s[1] == QUOTE then ReadKey(s[2..]) else NoMember
  }

  function ReadMembers(s: Bytes, first: bool): Option<seq<Member>>
    decreases |s|
  {
    if !first && s != [] && s[0] == CLOSE then Some([])
    else
      var r := ReadMember(s, first);
      if r.NoMember? then None
      else
        var more := ReadMembers(r.rest, false);
        if more.None? then None else Some([r.member] + more.value)
  }

  /** The members of the object at the front of the bytes, if there is one. */
  function ReadObject(s: Bytes): Option<seq<Member>> {
    if |s| >= 2 && s[0] == OPEN && s[1] == CLOSE then Some([]) else ReadMembers(s, true)
  }

  // -------------------------------------------------------------------------
  // Reading undoes writing

  /** Nothing in the member has to be escaped: no quote in a string, and a bare value ends where it should. */
  predicate Plain(m: Member) {
    && QUOTE !in m.key
    && (m.quotes ==> QUOTE !in m.value)
    && (!m.quotes ==> m.value != [] && QUOTE !in m.value && COMMA !in m.value && CLOSE !in m.value)
  }

  ghost predicate AllPlain(ms: seq<Member>) { forall i :: 0 <= i < |ms| ==> Plain(ms[i]) }

  ghost predicate NoneIn(a: Bytes, ends: set<byte>) { forall c :: c in a ==> c !in ends }

  lemma {:induction false} FindBehind(a: Bytes, s: Bytes, ends: set<byte>)
    requires NoneIn(a, ends) && s != [] && s[0] in ends
    ensures Find(a + s, ends) == |a|
  {
    if a == [] {
      assert a + s == s;
    } else {
      assert a[0] in a;
      forall c | c in a[1..] ensures c !in ends { assert c in a; }
      FindBehind(a[1..], s, ends);
      assert (a + s)[1..] == a[1..] + s;
    }
  }

  lemma QuotedReads(key: Bytes, value: Bytes, rest: Bytes)
    requires QUOTE !in value
    ensures ReadValue(key, [QUOTE] + value + [QUOTE] + rest) == Got(Member(key, value, true), rest)
  {
    var s := [QUOTE] + value + [QUOTE] + rest;
    assert s[1..] == value + ([QUOTE] + rest);
    FindBehind(value, [QUOTE] + rest, {QUOTE});
    assert s[1..][..|value|] == value && s[1..][|value| + 1..] == rest;
  }

  lemma BareReads(key: Bytes, value: Bytes, rest: Bytes)
    requires value != [] && QUOTE !in value && COMMA !in value && CLOSE !in value
    requires rest != [] && (rest[0] == COMMA || rest[0] == CLOSE)
    ensures ReadValue(key, value + rest) == Got(Member(key, value, false), rest)
  {
    var s := value + rest;
    assert s[0] == value[0] && value[0] in value;
    FindBehind(value, rest, {QUOTE, COMMA, CLOSE});
    assert s[..|value|] == value && s[|value|..] == rest;
  }

  lemma ValueReads(m: Member, rest: Bytes)
    requires Plain(m) && rest != [] && (rest[0] == COMMA || rest[0] == CLOSE)
    ensures ReadValue(m.key, Quoted(m.value, m.quotes) + rest) == Got(m, rest)
  {
    if m.quotes { QuotedReads(m.key, m.value, rest); } else { BareReads(m.key, m.value, rest); }
  }

  lemma KeyReads(key: Bytes, s: Bytes)
    requires QUOTE !in key
    ensures ReadKey(key + [QUOTE] + [COLON] + s) == ReadValue(key, s)
  {
    var t := key + [QUOTE] + [COLON] + s;
    assert t == key + ([QUOTE] + [COLON] + s);
    FindBehind(key, [QUOTE] + [COLON] + s, {QUOTE});
    assert t[|key| + 1] == COLON && t[..|key|] == key && t[|key| + 2..] == s;
  }

  lemma MemberReads(m: Member, first: bool, rest: Bytes)
    requires Plain(m) && rest != [] && (rest[0] == COMMA || rest[0] == CLOSE)
    ensures ReadMember(MemberText(m, first) + rest, first) == Got(m, rest)
  {
    var s, value := MemberText(m, first) + rest, Quoted(m.value, m.quotes) + rest;
    assert s == [if first then OPEN else COMMA] + [QUOTE] + (m.key + [QUOTE] + [COLON] + value);
    assert s[2..] == m.key + [QUOTE] + [COLON] + value;
    KeyReads(m.key, value);
    ValueReads(m, rest);
  }

  /** The text of members from the front, with what follows in the buffer. */
  function TextFrom(ms: seq<Member>, first: bool, tail: Bytes): (r: Bytes)
    ensures r != [] && (!first || ms == [] ==> r[0] == COMMA || r[0] == CLOSE)
  {
    if ms == [] then [CLOSE] + tail else MemberText(ms[0], first) + TextFrom(ms[1..], false, tail)
  }

  lemma Regrouped(a: Bytes, b: Bytes, c: Bytes)
    ensures (a + b) + c == a + (b + c)
  {
  }

  lemma TextOfOne(m: Member, more: seq<Member>, first: bool, tail: Bytes)
    ensures TextFrom([m] + more, first, tail) == MemberText(m, first) + TextFrom(more, false, tail)
  {
    assert ([m] + more)[0] == m && ([m] + more)[1..] == more;
  }

  lemma FirstOpened(m: Member)
    ensures Opened([m]) == MemberText(m, true)
  {
    assert [m][..0] == [] && [] + MemberText(m, true) == MemberText(m, true);
  }

  lemma Rejoined(ms: seq<Member>, more: seq<Member>)
    requires ms != []
    ensures ms[..|ms| - 1] + ([ms[|ms| - 1]] + more) == ms + more
  {
  }

  lemma {:induction false} OpenedThen(ms: seq<Member>, more: seq<Member>, tail: Bytes)
    requires ms != []
    ensures Opened(ms) + TextFrom(more, false, tail) == TextFrom(ms + more, true, tail)
    decreases |ms|
  {
    var front, last := ms[..|ms| - 1], ms[|ms| - 1];
    if front == [] {
      assert ms == [last];
      FirstOpened(last);
      TextOfOne(last, more, true, tail);
    } else {
      OpenedThen(front, [last] + more, tail);
      TextOfOne(last, more, false, tail);
      Regrouped(Opened(front), MemberText(last, false), TextFrom(more, false, tail));
      Rejoined(ms, more);
    }
  }

  lemma PlainRest(ms: seq<Member>)
    requires AllPlain(ms) && ms != []
    ensures Plain(ms[0]) && AllPlain(ms[1..])
  {
  }

  /** One member read, and the others behind it. */
  lemma ReadsOn(s: Bytes, first: bool, m: Member, rest: Bytes, more: seq<Member>)
    requires ReadMember(s, first) == Got(m, rest) && ReadMembers(rest, false) == Some(more)
    requires first || s[0] != CLOSE
    ensures ReadMembers(s, first) == Some([m] + more)
  {
  }

  lemma FrontByte(m: Member, rest: Bytes)
    ensures (MemberText(m, false) + rest)[0] == COMMA
  {
  }

  lemma OneMoreReads(m: Member, first: bool, rest: Bytes, more: seq<Member>)
    requires Plain(m) && rest != [] && (rest[0] == COMMA || rest[0] == CLOSE)
    requires ReadMembers(rest, false) == Some(more)
    ensures ReadMembers(MemberText(m, first) + rest, first) == Some([m] + more)
  {
    MemberReads(m, first, rest);
    FrontByte(m, rest);
    ReadsOn(MemberText(m, first) + rest, first, m, rest, more);
  }

  lemma NoneLeft(tail: Bytes)
    ensures ReadMembers([CLOSE] + tail, false) == Some([])
  {
  }

  lemma FirstAndRest(ms: seq<Member>, first: bool, tail: Bytes)
    requires ms != []
    ensures TextFrom(ms, first, tail) == MemberText(ms[0], first) + TextFrom(ms[1..], false, tail)
    ensures [ms[0]] + ms[1..] == ms
  {
  }

  lemma {:induction false} TextReads(ms: seq<Member>, first: bool, tail: Bytes)
    requires AllPlain(ms) && (first ==> ms != [])
    ensures ReadMembers(TextFrom(ms, first, tail), first) == Some(ms)
    decreases |ms|
  {
    if ms == [] {
      NoneLeft(tail);
    } else {
      PlainRest(ms);
      TextReads(ms[1..], false, tail);
      OneMoreReads(ms[0], first, TextFrom(ms[1..], false, tail), ms[1..]);
      FirstAndRest(ms, first, tail);
    }
  }

  /** The text of an object with these members. */
  function ObjectOf(ms: seq<Member>): Bytes { if ms == [] then [OPEN, CLOSE] else ObjectText(ms) }

  lemma TextOfObject(ms: seq<Member>, tail: Bytes)
    requires ms != []
    ensures ObjectText(ms) + tail == TextFrom(ms, true, tail)
  {
    OpenedThen(ms, [], tail);
    assert ms + [] == ms;
    assert Opened(ms) + [CLOSE] + tail == Opened(ms) + ([CLOSE] + tail);
  }

  lemma NotEmptyObject(ms: seq<Member>, tail: Bytes)
    requires ms != []
    ensures var s := TextFrom(ms, true, tail); |s| >= 2 && s[1] == QUOTE && ReadObject(s) == ReadMembers(s, true)
  {
  }

  /** The object that WriteObject puts at the front of a buffer is read back as its members, whatever follows it. */
  lemma {:induction false} ObjectReadsBack(ms: seq<Member>, tail: Bytes)
    requires AllPlain(ms)
    ensures ReadObject(ObjectOf(ms) + tail) == Some(ms)
  {
    if ms != [] {
      TextOfObject(ms, tail);
      NotEmptyObject(ms, tail);
      TextReads(ms, true, tail);
    }
  }

  // -------------------------------------------------------------------------
  // One more member

  lemma AppendedText(ms: seq<Member>, m: Member, tail: Bytes)
    requires ms != []
    ensures Opened(ms) + Appended(m.key, m.value, m.quotes) + tail == ObjectText(ms + [m]) + tail
  {
    assert (ms + [m])[..|ms|] == ms;
    assert KeyText(m.key, false) + (Quoted(m.value, m.quotes) + [CLOSE]) == MemberText(m, false) + [CLOSE];
  }

  lemma EmptyAppended(m: Member, tail: Bytes)
    ensures ReadObject([OPEN] + Appended(m.key, m.value, m.quotes) + tail) == None
  {
    var s := [OPEN] + Appended(m.key, m.value, m.quotes) + tail;
    assert s[0] == OPEN && s[1] == COMMA;
  }

  /** Appending to the text of an object, over its closing bracket: the reader gets the old members and the new one
      exactly when there were old ones; behind the bracket of an empty object comes a comma, and it reads nothing. */
  lemma {:induction false} AppendAddsIff(ms: seq<Member>, m: Member, tail: Bytes)
    requires AllPlain(ms) && Plain(m)
    ensures var body := ObjectOf(ms); var end := |body| - 1;
            ReadObject(body[..end] + Appended(m.key, m.value, m.quotes) + tail) ==
            if ms == [] then None else Some(ms + [m])
  {
    var body := ObjectOf(ms);
    if ms == [] {
      assert body[..1] == [OPEN];
      EmptyAppended(m, tail);
    } else {
      assert body[..|body| - 1] == Opened(ms);
      AppendedText(ms, m, tail);
      assert AllPlain(ms + [m]);
      ObjectReadsBack(ms + [m], tail);
    }
  }

  lemma OtherBracket(m: Member)
    ensures MemberText(m, true)[0] == OPEN && MemberText(m, false) == [COMMA] + MemberText(m, true)[1..]
  {
    var rest := [QUOTE] + m.key + [QUOTE] + [COLON];
    assert KeyText(m.key, true) == [OPEN] + rest && KeyText(m.key, false) == [COMMA] + rest;
  }

  lemma FirstByte(ms: seq<Member>)
    requires ms != []
    ensures TextFrom(ms, true, [])[0] == OPEN && TextFrom(ms, false, []) == [COMMA] + TextFrom(ms, true, [])[1..]
  {
    var text, rest := MemberText(ms[0], true), TextFrom(ms[1..], false, []);
    OtherBracket(ms[0]);
    assert (text + rest)[1..] == text[1..] + rest;
    Regrouped([COMMA], text[1..], rest);
  }

  lemma InsertedText(ms: seq<Member>, m: Member)
    requires ms != []
    ensures MemberText(m, true) + [COMMA] + ObjectText(ms)[1..] == TextFrom([m] + ms, true, [])
  {
    TextOfObject(ms, []);
    assert ObjectText(ms) + [] == ObjectText(ms);
    FirstByte(ms);
    Regrouped(MemberText(m, true), [COMMA], ObjectText(ms)[1..]);
    TextOfOne(m, ms, true, []);
  }

  lemma SecondByte(m: Member, rest: Bytes)
    ensures var s := MemberText(m, true) + rest; |s| >= 2 && s[1] == QUOTE
  {
  }

  /** A member and then a comma and nothing else: not an object. */
  lemma DanglingComma(m: Member)
    requires Plain(m)
    ensures ReadObject(MemberText(m, true) + [COMMA, CLOSE]) == None
  {
    MemberReads(m, true, [COMMA, CLOSE]);
    SecondByte(m, [COMMA, CLOSE]);
    assert ReadMembers([COMMA, CLOSE], false) == None;
  }

  lemma EmptyInserted(name: Bytes, key: Bytes)
    requires QUOTE !in name && QUOTE !in key
    ensures var r := WithoutPool([OPEN, CLOSE], name, key); r.Ok? && ReadObject(r.bytes) == None
  {
    var m := Member(name, key, true);
    WithoutPoolInserts([OPEN, CLOSE], name, key);
    assert [OPEN, CLOSE][1..] == [CLOSE] && [COMMA] + [CLOSE] == [COMMA, CLOSE];
    Regrouped(MemberText(m, true), [COMMA], [CLOSE]);
    DanglingComma(m);
  }

  lemma PlainFirst(m: Member, ms: seq<Member>)
    requires Plain(m) && AllPlain(ms)
    ensures AllPlain([m] + ms)
  {
  }

  /** The same without a buffer, where the key is put in front of the members. */
  lemma {:induction false} InsertAddsIff(ms: seq<Member>, name: Bytes, key: Bytes)
    requires AllPlain(ms) && QUOTE !in name && QUOTE !in key
    ensures var r := WithoutPool(ObjectOf(ms), name, key);
            r.Ok? && ReadObject(r.bytes) == if ms == [] then None else Some([Member(name, key, true)] + ms)
  {
    var m := Member(name, key, true);
    if ms == [] {
      EmptyInserted(name, key);
    } else {
      TextOfObject(ms, []);
      assert ObjectText(ms) + [] == ObjectText(ms);
      FirstByte(ms);
      NotEmptyObject(ms, []);
      WithoutPoolInserts(ObjectText(ms), name, key);
      InsertedText(ms, m);
      PlainFirst(m, ms);
      NotEmptyObject([m] + ms, []);
      TextReads([m] + ms, true, []);
    }
  }
}
