// Canonical text determines the value: Encode(a) == Encode(b) exactly when a and b
// agree up to the UTF-16 spelling of their strings.

module JsonInjective {
  import opened Json

  /******* Numbers *******/

  predicate IsDigit(c: char) { '0' <= c <= '9' }

  predicate AllDigits(s: string) { forall i | 0 <= i < |s| :: IsDigit(s[i]) }

  predicate Ends(r: string) { |r| > 0 ==> r[0] in {',', ']', '}'} }

  lemma {:induction false} DigitsAreDigits(n: nat)
    ensures |Digits(n)| > 0 && AllDigits(Digits(n))
  {
    if n >= 10 { DigitsAreDigits(n / 10); }
  }

  lemma {:induction false} DigitsInjective(m: nat, n: nat)
    requires Digits(m) == Digits(n)
    ensures m == n
    decreases m + n
  {
    DigitsAreDigits(m / 10);
    DigitsAreDigits(n / 10);
    var k := |Digits(m)| - 1;
    assert Digits(m)[k] == Digit(m % 10);
    assert Digits(n)[k] == Digit(n % 10);
    if m >= 10 && n >= 10 {
      assert Digits(m)[..k] == Digits(m / 10);
      assert Digits(n)[..k] == Digits(n / 10);
      DigitsInjective(m / 10, n / 10);
    }
  }

  lemma Assoc(a: string, b: string, c: string)
    ensures a + b + c == a + (b + c)
  {
  }

  lemma Strip(p: string, q: string, x: string, y: string)
    requires p + x == q + y && |p| == |q|
    ensures p == q && x == y
  {
    assert (p + x)[..|p|] == p && (q + y)[..|p|] == q;
    assert (p + x)[|p|..] == x && (q + y)[|p|..] == y;
  }

  lemma FirstChar(p: string, x: string)
    ensures p != "" ==> (p + x)[0] == p[0]
  {
  }

  // A run of digits stops at the first character that is not one.
  lemma SpanLength(x: string, y: string, r: string, t: string)
    requires x + r == y + t && AllDigits(y) && Ends(r)
    ensures |x| >= |y|
  {
    assert |x| < |x + r| ==> (x + r)[|x|] == r[0];
  }

  lemma SpanUnique(x: string, y: string, r: string, t: string)
    requires x + r == y + t && AllDigits(x) && AllDigits(y) && Ends(r) && Ends(t)
    ensures x == y && r == t
  {
    SpanLength(x, y, r, t);
    SpanLength(y, x, t, r);
    Strip(x, y, r, t);
  }

  lemma {:induction false} DecimalPrefix(m: int, n: int, r: string, t: string)
    requires Decimal(m) + r == Decimal(n) + t && Ends(r) && Ends(t)
    ensures m == n && r == t
  {
    var a, b := if m < 0 then -m else m, if n < 0 then -n else n;
    DigitsAreDigits(a);
    DigitsAreDigits(b);
    FirstChar(Decimal(m), r);
    FirstChar(Decimal(n), t);
    if m < 0 {
      Assoc("-", Digits(a), r);
      Assoc("-", Digits(b), t);
      Strip("-", "-", Digits(a) + r, Digits(b) + t);
    }
    SpanUnique(Digits(a), Digits(b), r, t);
    DigitsInjective(a, b);
  }

  /******* Strings *******/

  lemma {:induction false} Utf16IsUnits(s: Text)
    ensures Units(Utf16(s))
  {
    if s != [] { Utf16IsUnits(s[1..]); }
  }

  lemma {:induction false} EscapeUtf16(s: Text)
    ensures Escape(Utf16(s)) == Escape(s)
  {
    if s == [] {
    } else if s[0] < 0x10000 {
      EscapeUtf16(s[1..]);
      assert Utf16(s)[1..] == Utf16(s[1..]);
    } else {
      EscapeUtf16(s[1..]);
      EscapePair(High(s[0]), Low(s[0]), Utf16(s[1..]));
      SurrogatesEscape(s[0]);
    }
  }

  lemma SurrogatesEscape(c: CodePoint)
    requires c >= 0x10000
    ensures EscapeChar(c) == EscapeChar(High(c)) + EscapeChar(Low(c))
  {
    assert 0xD800 <= High(c) < 0xDC00 <= Low(c) < 0xE000;
  }

  lemma EscapePair(h: CodePoint, l: CodePoint, rest: Text)
    ensures Escape([h, l] + rest) == EscapeChar(h) + EscapeChar(l) + Escape(rest)
  {
    var u := [h, l] + rest;
    assert u[1..] == [l] + rest && u[1..][1..] == rest;
    Assoc(EscapeChar(h), EscapeChar(l), Escape(rest));
  }

  lemma DigitInjective(d: int, e: int)
    requires 0 <= d < 16 && 0 <= e < 16 && Digit(d) == Digit(e)
    ensures d == e
  {
  }

  lemma LastDigit(c: int, d: int)
    requires c / 16 == d / 16 && c % 16 == d % 16
    ensures c == d
  {
  }

  lemma UnitEscapeInjective(c: int, d: int)
    requires 0 <= c < 0x10000 && 0 <= d < 0x10000 && UnitEscape(c) == UnitEscape(d)
    ensures c == d
  {
    var e, f := UnitEscape(c), UnitEscape(d);
    assert e[2] == f[2] && e[3] == f[3] && e[4] == f[4] && e[5] == f[5];
    DigitInjective(c / 16 / 16 / 16, d / 16 / 16 / 16);
    DigitInjective(c / 16 / 16 % 16, d / 16 / 16 % 16);
    LastDigit(c / 16 / 16, d / 16 / 16);
    DigitInjective(c / 16 % 16, d / 16 % 16);
    LastDigit(c / 16, d / 16);
    DigitInjective(c % 16, d % 16);
    LastDigit(c, d);
  }

  lemma EscapeCharShape(c: CodePoint)
    requires c < 0x10000
    ensures var e := EscapeChar(c);
            && |e| in {1, 2, 6} && e[0] != '"'
            && (|e| == 1 <==> e[0] != '\\')
            && (|e| == 2 ==> e[1] != 'u')
            && (|e| == 6 ==> e[1] == 'u' && e == UnitEscape(c))
  {
  }

  // The escapes of single code units form a prefix code.
  lemma EscapeCharPrefix(c: CodePoint, d: CodePoint, x: string, y: string)
    requires c < 0x10000 && d < 0x10000
    requires EscapeChar(c) + x == EscapeChar(d) + y
    ensures c == d && x == y
  {
    var e, f := EscapeChar(c), EscapeChar(d);
    EscapeCharShape(c);
    EscapeCharShape(d);
    assert (e + x)[0] == e[0] && (f + y)[0] == f[0];
    if |e| > 1 {
      assert (e + x)[1] == e[1] && (f + y)[1] == f[1];
    }
    assert |e| == |f|;
    assert (e + x)[..|e|] == e && (f + y)[..|f|] == f;
    assert (e + x)[|e|..] == x && (f + y)[|f|..] == y;
    if |e| == 6 {
      UnitEscapeInjective(c, d);
    }
  }

  lemma {:induction false} EscapePrefix(s: Text, t: Text, x: string, y: string)
    requires Units(s) && Units(t)
    requires Escape(s) + ("\"" + x) == Escape(t) + ("\"" + y)
    ensures s == t && x == y
    decreases |s| + |t|
  {
    EscapeHead(s, "\"" + x);
    EscapeHead(t, "\"" + y);
    if s == [] || t == [] {
      Strip("\"", "\"", x, y);
    } else {
      EscapeCharPrefix(s[0], t[0], Escape(s[1..]) + ("\"" + x), Escape(t[1..]) + ("\"" + y));
      EscapePrefix(s[1..], t[1..], x, y);
    }
  }

  lemma EscapeHead(s: Text, z: string)
    requires Units(s) && z != "" && z[0] == '"'
    ensures s == [] ==> Escape(s) + z == z
    ensures s != [] ==> Escape(s) + z == EscapeChar(s[0]) + (Escape(s[1..]) + z)
    ensures (Escape(s) + z)[0] == '"' <==> s == []
  {
    if s != [] {
      EscapeCharShape(s[0]);
      Assoc(EscapeChar(s[0]), Escape(s[1..]), z);
    }
  }

  lemma QuotePrefix(s: Text, t: Text, x: string, y: string)
    requires Quote(s) + x == Quote(t) + y
    ensures Utf16(s) == Utf16(t) && x == y
  {
    EscapeUtf16(s);
    EscapeUtf16(t);
    Utf16IsUnits(s);
    Utf16IsUnits(t);
    QuoteShape(s, x);
    QuoteShape(t, y);
    Strip("\"", "\"", Escape(s) + ("\"" + x), Escape(t) + ("\"" + y));
    EscapePrefix(Utf16(s), Utf16(t), x, y);
  }

  lemma QuoteShape(s: Text, x: string)
    ensures Quote(s) + x == "\"" + (Escape(s) + ("\"" + x))
  {
    Assoc("\"", Escape(s), "\"");
    Assoc("\"", Escape(s) + "\"", x);
    Assoc(Escape(s), "\"", x);
  }

  /******* Values *******/

  function Head(j: Json): char {
    match j
    case Null => 'n'
    case Bool(b) => if b then 't' else 'f'
    case Number(n) => if n < 0 then '-' else '0'
    case Str(_) => '"'
    case Arr(_) => '['
    case Obj(_) => '{'
  }

  lemma EncodeHead(j: Json)
    ensures |Encode(j)| > 0
    ensures if j.Number? && j.n >= 0 then IsDigit(Encode(j)[0]) else Encode(j)[0] == Head(j)
  {
    if j.Number? && j.n >= 0 { DigitsAreDigits(j.n); }
  }

  lemma SameKind(a: Json, b: Json, r: string, t: string)
    requires Encode(a) + r == Encode(b) + t
    ensures Head(a) == Head(b)
  {
    EncodeHead(a);
    EncodeHead(b);
    assert (Encode(a) + r)[0] == Encode(a)[0];
    assert (Encode(b) + t)[0] == Encode(b)[0];
  }

  lemma {:induction false} EncodePrefix(a: Json, b: Json, r: string, t: string)
    requires Encode(a) + r == Encode(b) + t && Ends(r) && Ends(t)
    ensures Narrow(a) == Narrow(b) && r == t
    decreases a, 0
  {
    SameKind(a, b, r, t);
    match a
    case Null => Strip("null", "null", r, t);
    case Bool(_) => Strip(Encode(a), Encode(b), r, t);
    case Number(m) => DecimalPrefix(m, b.n, r, t);
    case Str(s) => QuotePrefix(s, b.s, r, t);
    case Arr(items) =>
      Bracket("[", EncodeItems(items), "]", r);
      Bracket("[", EncodeItems(b.items), "]", t);
      Strip("[", "[", EncodeItems(items) + ("]" + r), EncodeItems(b.items) + ("]" + t));
      ItemsPrefix(items, b.items, r, t);
    case Obj(members) =>
      Bracket("{", EncodeMembers(members), "}", r);
      Bracket("{", EncodeMembers(b.members), "}", t);
      Strip("{", "{", EncodeMembers(members) + ("}" + r), EncodeMembers(b.members) + ("}" + t));
      MembersPrefix(members, b.members, r, t);
  }

  lemma Bracket(open: string, body: string, close: string, r: string)
    ensures open + body + close + r == open + (body + (close + r))
  {
    Assoc(open + body, close, r);
    Assoc(open, body, close + r);
  }

  // What follows the first element of a list.
  function ItemsTail(items: seq<Json>, r: string): string
    requires items != []
  {
    if |items| == 1 then "]" + r else "," + (EncodeItems(items[1..]) + ("]" + r))
  }

  lemma ItemsSplit(items: seq<Json>, r: string)
    ensures items == [] ==> EncodeItems(items) + ("]" + r) == "]" + r
    ensures items != [] ==> EncodeItems(items) + ("]" + r) == Encode(items[0]) + ItemsTail(items, r)
    ensures (EncodeItems(items) + ("]" + r))[0] == ']' <==> items == []
  {
    if items != [] {
      EncodeHead(items[0]);
      if |items| > 1 {
        Bracket(Encode(items[0]), ",", EncodeItems(items[1..]), "]" + r);
      }
      FirstChar(Encode(items[0]), ItemsTail(items, r));
    }
  }

  lemma {:induction false} ItemsPrefix(xs: seq<Json>, ys: seq<Json>, r: string, t: string)
    requires EncodeItems(xs) + ("]" + r) == EncodeItems(ys) + ("]" + t)
    ensures NarrowItems(xs) == NarrowItems(ys) && r == t
    decreases xs, 1
  {
    ItemsSplit(xs, r);
    ItemsSplit(ys, t);
    if xs == [] || ys == [] {
      Strip("]", "]", r, t);
    } else {
      EncodePrefix(xs[0], ys[0], ItemsTail(xs, r), ItemsTail(ys, t));
      TailLength(|xs|, |ys|, ItemsTail(xs, r)[0], ItemsTail(ys, t)[0], ']');
      if |xs| == 1 {
        Strip("]", "]", r, t);
      } else {
        Strip(",", ",", EncodeItems(xs[1..]) + ("]" + r), EncodeItems(ys[1..]) + ("]" + t));
        ItemsPrefix(xs[1..], ys[1..], r, t);
      }
    }
  }

  lemma TailLength(m: nat, n: nat, c: char, d: char, close: char)
    requires m > 0 && n > 0 && c == d && close != ','
    requires c == if m == 1 then close else ','
    requires d == if n == 1 then close else ','
    ensures m == 1 <==> n == 1
  {
  }

  function MembersTail(ms: seq<Member>, r: string): string
    requires ms != []
  {
    if |ms| == 1 then "}" + r else "," + (EncodeMembers(ms[1..]) + ("}" + r))
  }

  lemma MembersSplit(ms: seq<Member>, r: string)
    ensures ms == [] ==> EncodeMembers(ms) + ("}" + r) == "}" + r
    ensures ms != [] ==>
              EncodeMembers(ms) + ("}" + r)
              == Quote(ms[0].key) + (":" + (Encode(ms[0].value) + MembersTail(ms, r)))
    ensures (EncodeMembers(ms) + ("}" + r))[0] == '}' <==> ms == []
  {
    if ms != [] {
      var k, v := Quote(ms[0].key), Encode(ms[0].value);
      if |ms| == 1 {
        Bracket(k, ":", v, "}" + r);
      } else {
        var m := EncodeMembers(ms[1..]);
        Bracket(k + ":" + v, ",", m, "}" + r);
        Bracket(k, ":", v, MembersTail(ms, r));
      }
      FirstChar(k, ":" + (v + MembersTail(ms, r)));
    }
  }

  lemma {:induction false} MembersPrefix(xs: seq<Member>, ys: seq<Member>, r: string, t: string)
    requires EncodeMembers(xs) + ("}" + r) == EncodeMembers(ys) + ("}" + t)
    ensures NarrowMembers(xs) == NarrowMembers(ys) && r == t
    decreases xs, 1
  {
    MembersSplit(xs, r);
    MembersSplit(ys, t);
    if xs == [] || ys == [] {
      Strip("}", "}", r, t);
    } else {
      var x, y := Encode(xs[0].value) + MembersTail(xs, r), Encode(ys[0].value) + MembersTail(ys, t);
      QuotePrefix(xs[0].key, ys[0].key, ":" + x, ":" + y);
      Strip(":", ":", x, y);
      assert xs[0].value < xs[0];
      EncodePrefix(xs[0].value, ys[0].value, MembersTail(xs, r), MembersTail(ys, t));
      TailLength(|xs|, |ys|, MembersTail(xs, r)[0], MembersTail(ys, t)[0], '}');
      if |xs| == 1 {
        Strip("}", "}", r, t);
      } else {
        Strip(",", ",", EncodeMembers(xs[1..]) + ("}" + r), EncodeMembers(ys[1..]) + ("}" + t));
        MembersPrefix(xs[1..], ys[1..], r, t);
      }
    }
  }

  lemma {:induction false} EncodeNarrow(j: Json)
    ensures Encode(Narrow(j)) == Encode(j)
    decreases j, 0
  {
    match j
    case Str(s) => EscapeUtf16(s);
    case Arr(items) => EncodeNarrowItems(items);
    case Obj(members) => EncodeNarrowMembers(members);
    case _ =>
  }

  lemma {:induction false} EncodeNarrowItems(items: seq<Json>)
    ensures EncodeItems(NarrowItems(items)) == EncodeItems(items)
    ensures |NarrowItems(items)| == |items|
    decreases items, 1
  {
    if items != [] {
      EncodeNarrow(items[0]);
      EncodeNarrowItems(items[1..]);
      assert NarrowItems(items)[1..] == NarrowItems(items[1..]);
    }
  }

  lemma {:induction false} EncodeNarrowMembers(ms: seq<Member>)
    ensures EncodeMembers(NarrowMembers(ms)) == EncodeMembers(ms)
    ensures |NarrowMembers(ms)| == |ms|
    decreases ms, 1
  {
    if ms != [] {
      EscapeUtf16(ms[0].key);
      EncodeNarrow(ms[0].value);
      EncodeNarrowMembers(ms[1..]);
      assert NarrowMembers(ms)[1..] == NarrowMembers(ms[1..]);
    }
  }

  // Main result on canonical text.
  lemma EncodeInjective(a: Json, b: Json)
    ensures Encode(a) == Encode(b) <==> Narrow(a) == Narrow(b)
  {
    if Encode(a) == Encode(b) {
      assert Encode(a) + "" == Encode(a) && Encode(b) + "" == Encode(b);
      EncodePrefix(a, b, "", "");
    }
    EncodeNarrow(a);
    EncodeNarrow(b);
  }

  /******* When the UTF-16 view determines the string *******/

  // Strings without surrogate code points are determined by their code units.
  lemma {:induction false} Utf16Injective(s: Text, t: Text)
    requires Plain(s) && Plain(t) && Utf16(s) == Utf16(t)
    ensures s == t
  {
    if s != [] && t != [] {
      assert s[0] == t[0] && Utf16(s[1..]) == Utf16(t[1..]) by { Utf16Head(s, t); }
      Utf16Injective(s[1..], t[1..]);
    }
  }

  lemma Utf16Head(s: Text, t: Text)
    requires Plain(s) && Plain(t) && Utf16(s) == Utf16(t) && s != [] && t != []
    ensures s[0] == t[0] && Utf16(s[1..]) == Utf16(t[1..])
  {
    var c, d := s[0], t[0];
    assert Utf16(s)[0] == if c < 0x10000 then c else High(c);
    assert Utf16(t)[0] == if d < 0x10000 then d else High(d);
    if c < 0x10000 {
      assert Utf16(s)[1..] == Utf16(s[1..]) && Utf16(t)[1..] == Utf16(t[1..]);
    } else {
      assert Utf16(s)[1] == Low(c) && Utf16(t)[1] == Low(d);
      assert Utf16(s)[2..] == Utf16(s[1..]) && Utf16(t)[2..] == Utf16(t[1..]);
    }
  }

  // With surrogates the text no longer determines the string: U+1F600 and the two
  // lone surrogates that spell it have one canonical form.
  lemma SurrogatePairCollision()
    ensures Encode(Str([0x1F600])) == Encode(Str([0xD83D, 0xDE00]))
  {
    var s: Text, t: Text := [0x1F600], [0xD83D, 0xDE00];
    assert s[1..] == [] && t[1..] == [0xDE00] && t[1..][1..] == [];
    assert Utf16(t[1..]) == t[1..];
    assert Utf16(s) == t && Utf16(t) == t;
    EscapeUtf16(s);
  }
}
