/**
 Channel names (pkg/info/channels.go).

 A Go string is a sequence of Unicode scalar values here, which is what ranging
 over a well-formed string yields; `char` is that type in Dafny.
 */
module Channels {
  import opened Wrappers

  const LOWER_HEX: string := "0123456789abcdef"

  predicate IsChannelChar(c: char) {
    '0' <= c <= '9' || 'A' <= c <= 'Z' || c == '_' || 'a' <= c <= 'z'
  }

  // ---------- escaping ----------

  /** The low `n` hexadecimal digits of `r`, most significant first. */
  function Hex(r: nat, n: nat): (s: string)
    ensures |s| == n
  {
    if n == 0 then "" else Hex(r / 16, n - 1) + [LOWER_HEX[r % 16]]
  }

  function EscapeChar(c: char): string {
    if IsChannelChar(c) then [c]
    else if c as int < 0x10000 then "u+" + Hex(c as int, 4)
    else "U+" + Hex(c as int, 8)
  }

  function Escape(s: string): string {
    if s == "" then "" else EscapeChar(s[0]) + Escape(s[1..])
  }

  /** `r >> s`. */
  function Shift(r: nat, s: nat): nat {
    if s == 0 then r else Shift(r, s - 1) / 2
  }

  lemma ShiftByFour(r: nat, s: nat)
    ensures Shift(r, s + 4) == Shift(r, s) / 16
  {
    assert Shift(r, s + 4) == Shift(r, s + 3) / 2;
    assert Shift(r, s + 2) == Shift(r, s + 1) / 2;
  }

  /** The shifting loops: `top` is 12 for four digits and 28 for eight. */
  method AppendHex(buf: string, r: nat, top: nat) returns (out: string)
    requires top % 4 == 0
    ensures out == buf + Hex(r, top / 4 + 1)
  {
    out := buf;
    var s: int := top;
    while s >= 0
      invariant -4 <= s <= top && s % 4 == 0
      invariant out == buf + Hex(Shift(r, s + 4), (top - s) / 4)
    {
      ShiftByFour(r, s);
      Assoc(buf, Hex(Shift(r, s + 4), (top - s) / 4), [LOWER_HEX[Shift(r, s) % 16]]);
      out := out + [LOWER_HEX[Shift(r, s) % 16]];
      s := s - 4;
    }
  }

  lemma Assoc<T>(a: seq<T>, b: seq<T>, c: seq<T>)
    ensures (a + b) + c == a + (b + c)
  {
  }

  lemma {:induction false} EscapeSnoc(s: string, c: char)
    ensures Escape(s + [c]) == Escape(s) + EscapeChar(c)
  {
    var e := EscapeChar(c);
    if s == "" {
      assert s + [c] == [c] && [c][1..] == "";
      assert Escape([c]) == e + "" == e;
    } else {
      var t := s + [c];
      var first := EscapeChar(s[0]);
      EscapeSnoc(s[1..], c);
      assert t[0] == s[0] && t[1..] == s[1..] + [c];
      Assoc(first, Escape(s[1..]), e);
    }
  }

  lemma EscapeStart(buf: string, s: string)
    ensures buf + Escape(s[..0]) == buf
  {
  }

  lemma EscapeStep(buf: string, s: string, i: nat)
    requires i < |s|
    ensures buf + Escape(s[..i + 1]) == (buf + Escape(s[..i])) + EscapeChar(s[i])
  {
    assert s[..i + 1] == s[..i] + [s[i]];
    EscapeSnoc(s[..i], s[i]);
    Assoc(buf, Escape(s[..i]), EscapeChar(s[i]));
  }

  method AppendSanitizedChannelPart(buf: string, s: string) returns (out: string)
    ensures out == buf + Escape(s)
  {
    hide Escape, Hex;
    EscapeStart(buf, s);
    out := buf;
    for i := 0 to |s|
      invariant out == buf + Escape(s[..i])
    {
      ghost var before := out;
      var r := s[i];
      if IsChannelChar(r) {
        out := out + [r];
      } else if r as int < 0x10000 {
        out := AppendHex(out + "u+", r as int, 12);
        Assoc(before, "u+", Hex(r as int, 4));
      } else {
        out := AppendHex(out + "U+", r as int, 28);
        Assoc(before, "U+", Hex(r as int, 8));
      }
      EscapeStep(buf, s, i);
    }
    assert s[..|s|] == s;
  }

  // ---------- the decoder that inverts it ----------

  function HexValue(c: char): Option<nat> {
    if '0' <= c <= '9' then Some(c as int - '0' as int)
    else if 'a' <= c <= 'f' then Some(c as int - 'a' as int + 10)
    else None
  }

  function UnHex(s: string): Option<nat> {
    if s == "" then Some(0)
    else match (UnHex(s[..|s| - 1]), HexValue(s[|s| - 1]))
      case (Some(high), Some(low)) => Some(16 * high + low)
      case _ => None
  }

  predicate IsScalar(v: int) {
    0 <= v < 0xD800 || 0xE000 <= v < 0x110000
  }

  function Unescape(s: string): Option<string>
    decreases |s|
  {
    if s == "" then Some("")
    else if |s| > 1 && s[1] == '+' then
      var width := if s[0] == 'u' then 4 else 8;
      if s[0] !in "uU" || |s| < 2 + width then None
      else match (UnHex(s[2..2 + width]), Unescape(s[2 + width..]))
        case (Some(v), Some(rest)) => if IsScalar(v) then Some([v as char] + rest) else None
        case _ => None
    else if IsChannelChar(s[0]) then
      match Unescape(s[1..])
      case Some(rest) => Some([s[0]] + rest)
      case None => None
    else None
  }

  function Pow16(n: nat): nat {
    if n == 0 then 1 else 16 * Pow16(n - 1)
  }

  lemma HexDigitValue(d: nat)
    requires d < 16
    ensures HexValue(LOWER_HEX[d]) == Some(d)
  {
  }

  lemma {:induction false} UnHexHex(r: nat, n: nat)
    requires r < Pow16(n)
    ensures UnHex(Hex(r, n)) == Some(r)
  {
    if n > 0 {
      UnHexHex(r / 16, n - 1);
      var s := Hex(r, n);
      assert s[..|s| - 1] == Hex(r / 16, n - 1) && s[|s| - 1] == LOWER_HEX[r % 16];
      HexDigitValue(r % 16);
    }
  }

  /** Output characters: channel characters and '+', and '+' never comes first. */
  lemma {:induction false} EscapeAlphabet(s: string)
    ensures forall i :: 0 <= i < |Escape(s)| ==> IsChannelChar(Escape(s)[i]) || Escape(s)[i] == '+'
    ensures Escape(s) != "" ==> Escape(s)[0] != '+'
    ensures Escape(s) == "" <==> s == ""
  {
    if s != "" {
      EscapeAlphabet(s[1..]);
      HexAlphabet(s[0] as int, 4);
      HexAlphabet(s[0] as int, 8);
    }
  }

  lemma {:induction false} HexAlphabet(r: nat, n: nat)
    ensures forall i :: 0 <= i < n ==> IsChannelChar(Hex(r, n)[i])
  {
    if n > 0 {
      HexAlphabet(r / 16, n - 1);
    }
  }

  /** Escaping emits none of the delimiters channel names and subjects use. */
  lemma EscapeHasNoDelimiter(s: string)
    ensures '|' !in Escape(s) && '.' !in Escape(s)
  {
    EscapeAlphabet(s);
  }

  /** One escaped character in front of text that does not start with '+'. */
  lemma UnescapeChar(c: char, rest: string)
    requires rest == "" || rest[0] != '+'
    requires Unescape(rest).Some?
    ensures Unescape(EscapeChar(c) + rest) == Some([c] + Unescape(rest).value)
  {
    var e := EscapeChar(c) + rest;
    if IsChannelChar(c) {
      assert e[1..] == rest;
    } else {
      var width := if c as int < 0x10000 then 4 else 8;
      var digits := Hex(c as int, width);
      WidthSuffices(c);
      UnHexHex(c as int, width);
      hide Hex, UnHex;
      assert e[2..2 + width] == digits;
      assert e[2 + width..] == rest;
    }
  }

  lemma WidthSuffices(c: char)
    ensures c as int < Pow16(if c as int < 0x10000 then 4 else 8)
  {
    assert Pow16(4) == 0x10000;
    assert Pow16(8) == 0x10000 * Pow16(4);
  }

  lemma {:induction false} UnescapeEscape(s: string)
    ensures Unescape(Escape(s)) == Some(s)
  {
    if s != "" {
      UnescapeEscape(s[1..]);
      EscapeAlphabet(s[1..]);
      UnescapeChar(s[0], Escape(s[1..]));
      assert [s[0]] + s[1..] == s;
    }
  }

  lemma EscapeInjective(s: string, t: string)
    requires Escape(s) == Escape(t)
    ensures s == t
  {
    UnescapeEscape(s);
    UnescapeEscape(t);
  }

  predicate AllChannelChars(s: string) {
    forall i :: 0 <= i < |s| ==> IsChannelChar(s[i])
  }

  /** A name is left alone exactly when it consists of channel characters. */
  lemma {:induction false} EscapeFixedPoint(s: string)
    ensures |Escape(s)| >= |s|
    ensures Escape(s) == s <==> AllChannelChars(s)
  {
    hide Hex;
    if s != "" {
      EscapeFixedPoint(s[1..]);
      if IsChannelChar(s[0]) {
        assert Escape(s)[1..] == Escape(s[1..]);
        assert s == [s[0]] + s[1..];
      } else {
        assert |Escape(s)| > |s|;
      }
    }
  }

  // ---------- joining parts ----------

  /** The source passes strings and lists of strings as parts. */
  datatype Part = Str(s: string) | List(items: seq<string>)

  /** A delimiter precedes a text exactly when the text before it is not empty. */
  function Weave(delim: char, texts: seq<string>): string {
    if texts == [] then ""
    else
      var last := |texts| - 1;
      if last > 0 && texts[last - 1] != "" then Weave(delim, texts[..last]) + ([delim] + texts[last])
      else Weave(delim, texts[..last]) + texts[last]
  }

  function EscapeAll(parts: seq<string>): seq<string> {
    seq(|parts|, i requires 0 <= i < |parts| => Escape(parts[i]))
  }

  function PartText(delim: char, part: Part): string {
    match part
    case Str(s) => Escape(s)
    case List(items) => Weave(delim, EscapeAll(items))
  }

  function PartTexts(delim: char, parts: seq<Part>): seq<string> {
    seq(|parts|, i requires 0 <= i < |parts| => PartText(delim, parts[i]))
  }

  function FormatParts(delim: char, parts: seq<Part>): string {
    Weave(delim, PartTexts(delim, parts))
  }

  lemma WeaveStep(buf: string, delim: char, texts: seq<string>, i: nat)
    requires i < |texts|
    ensures i > 0 && texts[i - 1] != ""
        ==> buf + Weave(delim, texts[..i + 1]) == ((buf + Weave(delim, texts[..i])) + [delim]) + texts[i]
    ensures !(i > 0 && texts[i - 1] != "")
        ==> buf + Weave(delim, texts[..i + 1]) == (buf + Weave(delim, texts[..i])) + texts[i]
  {
    assert texts[..i + 1][..i] == texts[..i];
    var woven := Weave(delim, texts[..i]);
    Assoc(buf, woven, [delim] + texts[i]);
    Assoc(buf + woven, [delim], texts[i]);
    Assoc(buf, woven, texts[i]);
  }

  /** appendChannelParts at a list of strings: the prefix flag compares buffer lengths. */
  method AppendStrings(buf: string, delim: char, parts: seq<string>) returns (out: string)
    ensures out == buf + Weave(delim, EscapeAll(parts))
  {
    out := buf;
    var prefix := false;
    ghost var texts := EscapeAll(parts);
    for i := 0 to |parts|
      invariant out == buf + Weave(delim, texts[..i])
      invariant prefix <==> i > 0 && texts[i - 1] != ""
    {
      WeaveStep(buf, delim, texts, i);
      if prefix {
        out := out + [delim];
      }
      var l := |out|;
      out := AppendSanitizedChannelPart(out, parts[i]);
      prefix := |out| > l;
    }
    assert texts[..|parts|] == texts;
  }

  /** appendChannelParts at mixed parts, where a list part recurses. */
  method AppendChannelParts(buf: string, delim: char, parts: seq<Part>) returns (out: string)
    ensures out == buf + FormatParts(delim, parts)
  {
    out := buf;
    var prefix := false;
    ghost var texts := PartTexts(delim, parts);
    for i := 0 to |parts|
      invariant out == buf + Weave(delim, texts[..i])
      invariant prefix <==> i > 0 && texts[i - 1] != ""
    {
      WeaveStep(buf, delim, texts, i);
      if prefix {
        out := out + [delim];
      }
      var l := |out|;
      match parts[i] {
        case Str(s) => out := AppendSanitizedChannelPart(out, s);
        case List(items) => out := AppendStrings(out, delim, items);
      }
      prefix := |out| > l;
    }
    assert texts[..|parts|] == texts;
  }

  // ---------- the plain join and split ----------

  function Join(delim: char, parts: seq<string>): string {
    if parts == [] then ""
    else
      var last := |parts| - 1;
      if last > 0 then Join(delim, parts[..last]) + ([delim] + parts[last]) else parts[0]
  }

  /** strings.Split at a one-character separator. */
  function Split(s: string, delim: char): (parts: seq<string>)
    ensures parts != []
  {
    if s == "" then [""]
    else
      var rest := Split(s[1..], delim);
      if s[0] == delim then [""] + rest else [[s[0]] + rest[0]] + rest[1..]
  }

  lemma SplitCons(c: char, x: string, delim: char)
    ensures Split([c] + x, delim)
         == if c == delim then [""] + Split(x, delim) else [[c] + Split(x, delim)[0]] + Split(x, delim)[1..]
  {
    assert ([c] + x)[1..] == x;
  }

  lemma {:induction false} SplitAtDelimiter(x: string, delim: char, y: string)
    ensures Split(x + ([delim] + y), delim) == Split(x, delim) + Split(y, delim)
  {
    if x == "" {
      assert x + ([delim] + y) == [delim] + y;
      SplitCons(delim, y, delim);
    } else {
      hide Split;
      var c, rest, tail := x[0], x[1..], [delim] + y;
      SplitAtDelimiter(rest, delim, y);
      assert x == [c] + rest;
      Assoc([c], rest, tail);
      SplitCons(c, rest, delim);
      SplitCons(c, rest + tail, delim);
      PutInFront(c, delim, Split(rest, delim), Split(y, delim));
    }
  }

  lemma PutInFront(c: char, delim: char, front: seq<string>, back: seq<string>)
    requires front != []
    ensures [""] + (front + back) == ([""] + front) + back
    ensures [[c] + (front + back)[0]] + (front + back)[1..] == ([[c] + front[0]] + front[1..]) + back
  {
    assert (front + back)[0] == front[0] && (front + back)[1..] == front[1..] + back;
    Assoc([[c] + front[0]], front[1..], back);
  }

  lemma {:induction false} SplitWithoutDelimiter(x: string, delim: char)
    requires delim !in x
    ensures Split(x, delim) == [x]
  {
    if x != "" {
      SplitWithoutDelimiter(x[1..], delim);
      assert [x[0]] + x[1..] == x;
    }
  }

  lemma {:induction false} SplitPartsHaveNoDelimiter(x: string, delim: char)
    ensures forall p :: p in Split(x, delim) ==> delim !in p
  {
    if x != "" {
      SplitPartsHaveNoDelimiter(x[1..], delim);
      var rest := Split(x[1..], delim);
      assert delim !in rest[0];
    }
  }

  lemma {:induction false} SplitJoin(delim: char, parts: seq<string>)
    requires parts != [] && forall p :: p in parts ==> delim !in p
    ensures Split(Join(delim, parts), delim) == parts
  {
    var last := |parts| - 1;
    SplitWithoutDelimiter(parts[last], delim);
    if last == 0 {
      assert Join(delim, parts) == parts[0];
    } else {
      SplitJoin(delim, parts[..last]);
      SplitAtDelimiter(Join(delim, parts[..last]), delim, parts[last]);
    }
  }

  lemma {:induction false} JoinSnoc(delim: char, parts: seq<string>, x: string)
    ensures parts != [] ==> Join(delim, parts + [x]) == Join(delim, parts) + ([delim] + x)
    ensures Join(delim, [x]) == x
  {
    assert (parts + [x])[..|parts|] == parts;
  }

  lemma {:induction false} JoinConcat(delim: char, a: seq<string>, b: seq<string>)
    requires a != [] && b != []
    ensures Join(delim, a + b) == Join(delim, a) + ([delim] + Join(delim, b))
  {
    var last := |b| - 1;
    var init, x := b[..last], b[last];
    assert b == init + [x];
    if last == 0 {
      JoinSnoc(delim, a, x);
      assert b == [x];
    } else {
      Assoc(a, init, [x]);
      JoinSnoc(delim, a + init, x);
      JoinSnoc(delim, init, x);
      JoinConcat(delim, a, init);
      Assoc(Join(delim, a), [delim] + Join(delim, init), [delim] + x);
      Assoc([delim], Join(delim, init), [delim] + x);
    }
  }

  // ---------- the canonical form of a topic ----------

  function NonEmpty(parts: seq<string>): seq<string> {
    if parts == [] then []
    else
      var last := |parts| - 1;
      if parts[last] != "" then NonEmpty(parts[..last]) + [parts[last]] else NonEmpty(parts[..last])
  }

  /** What survives of a topic in a channel name: its non-empty parts, and one
      trailing empty part when the topic ends in one. */
  function Canon(topic: seq<string>): seq<string> {
    if NonEmpty(topic) != [] && topic[|topic| - 1] == "" then NonEmpty(topic) + [""] else NonEmpty(topic)
  }

  lemma EscapeAllConcat(a: seq<string>, b: seq<string>)
    ensures EscapeAll(a + b) == EscapeAll(a) + EscapeAll(b)
  {
  }

  lemma EscapeAllInjective(a: seq<string>, b: seq<string>)
    requires EscapeAll(a) == EscapeAll(b)
    ensures a == b
  {
    assert |a| == |EscapeAll(a)| == |b|;
    forall i | 0 <= i < |a| ensures a[i] == b[i] {
      assert Escape(a[i]) == EscapeAll(a)[i] == EscapeAll(b)[i];
      EscapeInjective(a[i], b[i]);
    }
  }

  /** The prefix-flag loop is a plain join of the canonical form. */
  lemma {:induction false} WeaveIsJoin(delim: char, texts: seq<string>)
    ensures Weave(delim, texts) == Join(delim, Canon(texts))
    ensures Weave(delim, texts) == "" <==> Canon(texts) == []
  {
    if texts != [] {
      var last := |texts| - 1;
      var init, x := texts[..last], texts[last];
      WeaveIsJoin(delim, init);
      var kept := NonEmpty(init);
      var woven := Join(delim, kept);
      JoinSnoc(delim, kept, x);
      if kept == [] {
        assert last == 0 || texts[last - 1] == init[last - 1] == "";
        assert kept + [x] == [x];
      } else if init[last - 1] == "" {
        JoinSnoc(delim, kept, "");
        Assoc(woven, [delim], x);
        assert Weave(delim, texts) == woven + ([delim] + x);
      }
    }
  }

  lemma {:induction false} NonEmptyEscapes(topic: seq<string>)
    ensures NonEmpty(EscapeAll(topic)) == EscapeAll(NonEmpty(topic))
  {
    if topic != [] {
      var last := |topic| - 1;
      NonEmptyEscapes(topic[..last]);
      assert EscapeAll(topic)[..last] == EscapeAll(topic[..last]);
      EscapeAlphabet(topic[last]);
      EscapeAllConcat(NonEmpty(topic[..last]), [topic[last]]);
    }
  }

  lemma TopicText(delim: char, topic: seq<string>)
    ensures PartText(delim, List(topic)) == Join(delim, EscapeAll(Canon(topic)))
    ensures PartText(delim, List(topic)) == "" <==> Canon(topic) == []
  {
    WeaveIsJoin(delim, EscapeAll(topic));
    NonEmptyEscapes(topic);
    if topic != [] {
      EscapeAlphabet(topic[|topic| - 1]);
    }
    EscapeAllConcat(NonEmpty(topic), [""]);
    assert Canon(EscapeAll(topic)) == EscapeAll(Canon(topic));
  }

  /** Exactly the topics no information is lost from. */
  predicate IsCanonical(topic: seq<string>) {
    topic == [] || (topic[0] != "" && forall i :: 0 <= i < |topic| - 1 ==> topic[i] != "")
  }

  lemma {:induction false} NonEmptyFacts(topic: seq<string>)
    ensures "" !in NonEmpty(topic)
    ensures "" !in topic ==> NonEmpty(topic) == topic
    ensures "" in topic ==> |NonEmpty(topic)| < |topic|
  {
    if topic != [] {
      NonEmptyFacts(topic[..|topic| - 1]);
      assert topic == topic[..|topic| - 1] + [topic[|topic| - 1]];
    }
  }

  lemma CanonFixedPoint(topic: seq<string>)
    ensures Canon(topic) == topic <==> IsCanonical(topic)
  {
    NonEmptyFacts(topic);
    if topic != [] && topic[|topic| - 1] == "" {
      var init := topic[..|topic| - 1];
      NonEmptyFacts(init);
      assert topic == init + [""];
      if init != [] {
        CanonOfTrailingEmpty(init);
      }
    }
  }

  lemma CanonOfTrailingEmpty(init: seq<string>)
    requires init != []
    ensures Canon(init + [""]) == init + [""] <==> "" !in init
  {
    var topic := init + [""];
    assert topic[..|init|] == init;
    NonEmptyFacts(init);
    if Canon(topic) == topic {
      assert |NonEmpty(init)| == |init|;
    }
  }

  lemma CanonIsCanonical(topic: seq<string>)
    ensures IsCanonical(Canon(topic))
  {
    NonEmptyFacts(topic);
  }

  // ---------- the channel names ----------

  /** GetRPCChannel, GetClaimResponseChannel and GetStreamServerChannel, flat form;
      `suffix` is REQ, RCLAIM or STR. */
  function RequestChannel(service: string, rpc: string, topic: seq<string>, suffix: string): string {
    FormatParts('|', [Str(service), Str(rpc), List(topic), Str(suffix)])
  }

  /** GetClaimRequestChannel, GetStreamChannel and GetResponseChannel, flat form;
      `suffix` is CLAIM, STR or RES. */
  function ClientChannel(service: string, clientId: string, suffix: string): string {
    FormatParts('|', [Str(service), Str(clientId), Str(suffix)])
  }

  /** GetHandlerKey. */
  function HandlerKey(rpc: string, topic: seq<string>): string {
    FormatParts('.', [Str(rpc), List(topic)])
  }

  /** The fields of a flat name, once the topic is put in canonical form. */
  function RequestFields(service: string, rpc: string, topic: seq<string>, suffix: string): seq<string> {
    [service, rpc] + Canon(topic) + [suffix]
  }

  lemma WeaveTwo(delim: char, a: string, b: string)
    requires a != ""
    ensures Weave(delim, [a, b]) == a + ([delim] + b)
    ensures Join(delim, [a, b]) == a + ([delim] + b)
  {
    assert [a, b][..1] == [a] && [a][..0] == [];
    assert Weave(delim, [a]) == "" + a == a;
  }

  lemma WeaveFour(delim: char, a: string, b: string, c: string, d: string)
    requires b != ""
    ensures Weave(delim, [a, b, d]) == Weave(delim, [a, b]) + ([delim] + d)
    ensures c == "" ==> Weave(delim, [a, b, c, d]) == Weave(delim, [a, b]) + ([delim] + d)
    ensures c != "" ==> Weave(delim, [a, b, c, d]) == (Weave(delim, [a, b]) + ([delim] + c)) + ([delim] + d)
  {
    assert [a, b, c, d][..3] == [a, b, c];
    assert [a, b, c][..2] == [a, b] && [a, b, d][..2] == [a, b];
    Assoc(Weave(delim, [a, b]), [delim], d);
    assert c == "" ==> [delim] + c == [delim];
  }

  /** The nested prefix-flag loop writes a plain join of the fields. */
  lemma RequestChannelIsJoin(service: string, rpc: string, topic: seq<string>, suffix: string)
    requires service != "" && rpc != ""
    ensures RequestChannel(service, rpc, topic, suffix)
         == Join('|', EscapeAll(RequestFields(service, rpc, topic, suffix)))
  {
    hide Escape, Weave, Join, Canon;
    var s, m, x, end := Escape(service), Escape(rpc), PartText('|', List(topic)), Escape(suffix);
    var fields := EscapeAll(Canon(topic));
    EscapeAlphabet(service);
    EscapeAlphabet(rpc);
    TopicText('|', topic);
    assert PartTexts('|', [Str(service), Str(rpc), List(topic), Str(suffix)]) == [s, m, x, end];
    assert EscapeAll(RequestFields(service, rpc, topic, suffix)) == ([s, m] + fields) + [end];
    WeaveFieldsIsJoin('|', s, m, fields, x, end);
  }

  lemma WeaveFieldsIsJoin(delim: char, s: string, m: string, fields: seq<string>, x: string, end: string)
    requires s != "" && m != "" && x == Join(delim, fields) && (x == "" <==> fields == [])
    ensures Weave(delim, [s, m, x, end]) == Join(delim, ([s, m] + fields) + [end])
  {
    WeaveFour(delim, s, m, x, end);
    WeaveTwo(delim, s, m);
    JoinSnoc(delim, [s, m] + fields, end);
    if fields == [] {
      assert [s, m] + fields == [s, m];
    } else {
      JoinConcat(delim, [s, m], fields);
    }
  }

  lemma JoinedFieldsInjective(delim: char, a: seq<string>, b: seq<string>)
    requires delim == '|' || delim == '.'
    requires a != [] && b != [] && Join(delim, EscapeAll(a)) == Join(delim, EscapeAll(b))
    ensures a == b
  {
    forall p | p in EscapeAll(a) || p in EscapeAll(b) ensures delim !in p {
      if p in EscapeAll(a) {
        var i :| 0 <= i < |a| && EscapeAll(a)[i] == p;
        EscapeHasNoDelimiter(a[i]);
      } else {
        var i :| 0 <= i < |b| && EscapeAll(b)[i] == p;
        EscapeHasNoDelimiter(b[i]);
      }
    }
    SplitJoin(delim, EscapeAll(a));
    SplitJoin(delim, EscapeAll(b));
    EscapeAllInjective(a, b);
  }

  /** A flat request name determines the service, the method, the suffix and the
      topic up to its canonical form, and nothing more. */
  lemma RequestChannelDetermines(service: string, rpc: string, topic: seq<string>, suffix: string,
                                 service': string, rpc': string, topic': seq<string>, suffix': string)
    requires service != "" && rpc != "" && service' != "" && rpc' != ""
    ensures RequestChannel(service, rpc, topic, suffix) == RequestChannel(service', rpc', topic', suffix')
       <==> service == service' && rpc == rpc' && Canon(topic) == Canon(topic') && suffix == suffix'
  {
    var a := RequestFields(service, rpc, topic, suffix);
    var b := RequestFields(service', rpc', topic', suffix');
    RequestChannelIsJoin(service, rpc, topic, suffix);
    RequestChannelIsJoin(service', rpc', topic', suffix');
    if RequestChannel(service, rpc, topic, suffix) == RequestChannel(service', rpc', topic', suffix') {
      JoinedFieldsInjective('|', a, b);
      assert service == a[0] == b[0] && rpc == a[1] == b[1];
      assert suffix == a[|a| - 1] == b[|b| - 1];
      assert Canon(topic) == a[2..|a| - 1] == b[2..|b| - 1];
    }
  }

  /** With no empty topic part, as the subject grammar intends, the topic list itself is determined. */
  lemma RequestChannelInjective(service: string, rpc: string, topic: seq<string>, suffix: string,
                                service': string, rpc': string, topic': seq<string>, suffix': string)
    requires service != "" && rpc != "" && service' != "" && rpc' != ""
    requires "" !in topic && "" !in topic'
    requires RequestChannel(service, rpc, topic, suffix) == RequestChannel(service', rpc', topic', suffix')
    ensures service == service' && rpc == rpc' && topic == topic' && suffix == suffix'
  {
    RequestChannelDetermines(service, rpc, topic, suffix, service', rpc', topic', suffix');
    NonEmptyFacts(topic);
    NonEmptyFacts(topic');
    assert Canon(topic) == topic && Canon(topic') == topic';
  }

  /** Behind every flat name there is exactly one canonical topic, the one that survives. */
  lemma OneCanonicalTopic(service: string, rpc: string, topic: seq<string>, suffix: string, other: seq<string>)
    requires service != "" && rpc != ""
    ensures IsCanonical(Canon(topic))
    ensures IsCanonical(other) ==>
      (RequestChannel(service, rpc, other, suffix) == RequestChannel(service, rpc, topic, suffix)
       <==> other == Canon(topic))
  {
    hide RequestChannel, Canon, IsCanonical;
    CanonIsCanonical(topic);
    CanonFixedPoint(other);
    RequestChannelDetermines(service, rpc, other, suffix, service, rpc, topic, suffix);
  }

  /** An empty part in the middle is lost: two topics, one channel. */
  lemma EmptyTopicPartCollides(service: string, rpc: string, suffix: string)
    requires service != "" && rpc != ""
    ensures ["a", "", "b"] != ["a", "b"]
    ensures RequestChannel(service, rpc, ["a", "", "b"], suffix) == RequestChannel(service, rpc, ["a", "b"], suffix)
  {
    assert ["a", "", "b"][..2] == ["a", ""];
    assert ["a", ""][..1] == ["a"] == ["a", "b"][..1];
    assert ["a"][..0] == [];
    RequestChannelDetermines(service, rpc, ["a", "", "b"], suffix, service, rpc, ["a", "b"], suffix);
  }

  lemma ClientChannelIsBlankTopic(service: string, clientId: string, suffix: string)
    requires clientId != ""
    ensures ClientChannel(service, clientId, suffix) == RequestChannel(service, clientId, [], suffix)
  {
    var s, n, end := Escape(service), Escape(clientId), Escape(suffix);
    EscapeAlphabet(clientId);
    assert PartTexts('|', [Str(service), Str(clientId), Str(suffix)]) == [s, n, end];
    assert PartTexts('|', [Str(service), Str(clientId), List([]), Str(suffix)]) == [s, n, "", end];
    WeaveFour('|', s, n, "", end);
  }

  /** The channel a node's streams arrive on is the one a streaming method is served
      on exactly when the node bears the method's name and the topic is blank. */
  lemma StreamChannelsMeet(service: string, node: string, service': string, rpc: string, topic: seq<string>)
    requires service != "" && node != "" && service' != "" && rpc != ""
    ensures ClientChannel(service, node, "STR") == RequestChannel(service', rpc, topic, "STR")
       <==> service == service' && node == rpc && Canon(topic) == []
  {
    ClientChannelIsBlankTopic(service, node, "STR");
    RequestChannelDetermines(service, node, [], "STR", service', rpc, topic, "STR");
  }

  /** Two handlers share a key exactly when their method and canonical topic agree. */
  lemma HandlerKeyDetermines(rpc: string, topic: seq<string>, rpc': string, topic': seq<string>)
    requires rpc != "" && rpc' != ""
    ensures HandlerKey(rpc, topic) == HandlerKey(rpc', topic') <==> rpc == rpc' && Canon(topic) == Canon(topic')
  {
    hide Escape, EscapeAll, Weave, Join, Canon, HandlerKey, PartText;
    HandlerKeyText(rpc, topic);
    HandlerKeyText(rpc', topic');
    TopicText('.', topic);
    TopicText('.', topic');
    if HandlerKey(rpc, topic) == HandlerKey(rpc', topic') {
      EscapeInjective(rpc, rpc');
      var x, y := PartText('.', List(topic)), PartText('.', List(topic'));
      assert x == HandlerKey(rpc, topic)[|Escape(rpc)| + 1..];
      assert y == HandlerKey(rpc', topic')[|Escape(rpc)| + 1..];
      if Canon(topic) != [] && Canon(topic') != [] {
        JoinedFieldsInjective('.', Canon(topic), Canon(topic'));
      }
    }
  }

  lemma HandlerKeyText(rpc: string, topic: seq<string>)
    requires rpc != ""
    ensures HandlerKey(rpc, topic) == Escape(rpc) + ("." + PartText('.', List(topic)))
    ensures Split(HandlerKey(rpc, topic), '.')[0] == Escape(rpc)
  {
    var m, x := Escape(rpc), PartText('.', List(topic));
    EscapeAlphabet(rpc);
    assert PartTexts('.', [Str(rpc), List(topic)]) == [m, x];
    WeaveTwo('.', m, x);
    SplitAtDelimiter(m, '.', x);
    SplitWithoutDelimiter(m, '.');
  }

  // ---------- per-request reply subjects ----------

  /** formatClientChannel. */
  function ClientSubject(service: string, clientId: string, channel: string): string {
    "CLI." + service + "." + clientId + "." + channel
  }

  function PerRequestClientID(clientId: string, requestId: string): string {
    clientId + "." + requestId
  }

  function PerRequestID(channel: string): string {
    var parts := Split(channel, '.');
    if |parts| < 2 then "" else parts[|parts| - 2]
  }

  /** Services and client IDs may hold dots; the request ID comes back exactly when it holds none. */
  lemma PerRequestIDRoundTrip(service: string, clientId: string, requestId: string)
    ensures PerRequestID(ClientSubject(service, PerRequestClientID(clientId, requestId), "RES")) == requestId
       <==> '.' !in requestId
  {
    var before := "CLI." + service + "." + clientId;
    var subject := ClientSubject(service, PerRequestClientID(clientId, requestId), "RES");
    assert subject == (before + ("." + requestId)) + ("." + "RES");
    SplitAtDelimiter(before + ("." + requestId), '.', "RES");
    SplitAtDelimiter(before, '.', requestId);
    SplitWithoutDelimiter("RES", '.');
    var ids := Split(requestId, '.');
    assert PerRequestID(subject) == ids[|ids| - 1];
    SplitPartsHaveNoDelimiter(requestId, '.');
    if '.' !in requestId {
      SplitWithoutDelimiter(requestId, '.');
    }
  }
}
