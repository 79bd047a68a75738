/** A compact JSON encoder (no white space, `,` and `:` separators), the
    partner of the decoder: decoding what it writes gives back the value. */
module JsonEncode {
  import opened Wrappers
  import opened Text
  import opened Dicts
  import opened Json
  import opened JsonDecode
  import opened Seqs

  /** One character inside a string literal: quote and backslash are
      escaped, control characters written as `\u00XX`. */
  function EscapeChar(c: char): string {
    if c == '"' then "\\\""
    else if c == '\\' then "\\\\"
    else if c < ' ' then "\\u00" + [HexDigit(c as int / 16), HexDigit(c as int % 16)]
    else [c]
  }

  function Escape(s: string): string {
    if s == [] then "" else EscapeChar(s[0]) + Escape(s[1..])
  }

  function Quote(s: string): string {
    "\"" + Escape(s) + "\""
  }

  function SerializeNonFinite(nf: NonFinite): string {
    match nf
    case NaN => "NaN"
    case PosInfinity => "Infinity"
    case NegInfinity => "-Infinity"
  }

  /** The text of `v`. It is never empty and never starts with white space;
      an object's text is enclosed in braces. */
  function Serialize(v: Json): (r: string)
    ensures |r| > 0 && !IsJsonSpace(r[0]) && r[0] != ']' && r[0] != '}' && r[0] != '\U{FEFF}'
    ensures v.JObject? ==> r[0] == '{' && r[|r| - 1] == '}'
    decreases v, 1
  {
    match v
    case JNull => "null"
    case JBool(b) => if b then "true" else "false"
    case JInt(i) => IntToString(i)
    case JDecimal(m, e) => IntToString(m) + "e" + IntToString(e)
    case JNonFinite(nf) => SerializeNonFinite(nf)
    case JString(s) => Quote(s)
    case JArray(items) => "[" + SerializeItems(items) + "]"
    case JObject(ms) => "{" + SerializeMembers(ms) + "}"
  }

  function SerializeItems(items: seq<Json>): string
    decreases items, 0
  {
    if |items| == 0 then ""
    else if |items| == 1 then Serialize(items[0])
    else Serialize(items[0]) + "," + SerializeItems(items[1..])
  }

  function SerializeMembers(ms: seq<(string, Json)>): string
    decreases ms, 0
  {
    if |ms| == 0 then ""
    else if |ms| == 1 then SerializeMember(ms[0])
    else SerializeMember(ms[0]) + "," + SerializeMembers(ms[1..])
  }

  function SerializeMember(m: (string, Json)): string
    decreases m, 0
  {
    "\"" + Escape(m.0) + "\"" + ":" + Serialize(m.1)
  }

  /** What may follow a value inside the encoder's output. */
  predicate Delimited(rest: string) {
    rest == [] || rest[0] == ',' || rest[0] == ']' || rest[0] == '}'
  }

  /** The text opener, `x`, closer, `rest` seen from after the opener,
      `x` being empty or starting with no white space. */
  lemma Opened(o: string, x: string, c: string, rest: string)
    requires |o| == 1 && |c| == 1 && !IsJsonSpace(c[0])
    requires x == [] || !IsJsonSpace(x[0])
    ensures var t := x + c + rest; var s := o + x + c + rest;
            s != [] && s[0] == o[0] && s[1..] == t && t != []
            && (x != [] ==> t[0] == x[0])
            && (x == [] ==> t[0] == c[0] && t[1..] == rest)
            && SkipWs(t) == t
  {
    var t := x + c + rest;
    Framed(o, x, c, rest);
    if x == [] {
      assert t == c + rest;
      Cons1(c, rest);
    } else {
      Split1(x, c + rest);
      Assoc(x, c, rest);
    }
    NoSpace(t);
  }

  /** The text `a`, closer, `rest` seen from the closer on. */
  lemma Ended(a: string, close: string, rest: string)
    requires a != [] && |close| == 1 && !IsJsonSpace(close[0])
    ensures var u := close + rest;
            a + close + rest == a + u && (a + u)[0] == a[0]
            && u[0] == close[0] && u[1..] == rest && SkipWs(u) == u
  {
    Closed(a, close, rest);
  }

  /** The text `a`, separator, `x`, closer, `rest` seen from the separator on. */
  lemma Joined(a: string, sep: string, x: string, close: string, rest: string)
    requires a != [] && x != [] && |sep| == 1
    requires !IsJsonSpace(sep[0]) && !IsJsonSpace(x[0])
    ensures var tail := x + close + rest; var u := sep + tail;
            a + sep + x + close + rest == a + u && (a + u)[0] == a[0]
            && u[0] == sep[0] && u[1..] == tail && tail[0] == x[0]
            && SkipWs(u) == u && SkipWs(tail) == tail
  {
    Listed(a, sep, x, close, rest);
  }

  /** Text that does not start with white space is left as it is. */
  lemma NoSpace(u: string)
    requires u != [] && !IsJsonSpace(u[0])
    ensures SkipWs(u) == u
  {
  }

  lemma PrefixOf(p: string, rest: string)
    ensures StartsWith(p + rest, p) && (p + rest)[|p|..] == rest
  {
    assert (p + rest)[..|p|] == p;
  }

  lemma DiffersAt(s: string, p: string, k: nat)
    requires k < |p| && k < |s| && s[k] != p[k]
    ensures !StartsWith(s, p)
  {
    if |p| <= |s| {
      assert s[..|p|][k] == s[k];
    }
  }

  /** Reading a string's characters, one step: an unescaped character. */
  lemma StringPlain(x: string, tail: string, t: string, rest: string, q: nat)
    requires q > |x| && x != [] && x[0] != '"' && x[0] != '\\' && x[0] >= ' '
    requires x[1..] == tail && ParseString(tail, q) == Ok((t, rest))
    ensures ParseString(x, q) == Ok(([x[0]] + t, rest))
  {
  }

  /** Reading a string's characters, one step: an escape sequence. */
  lemma StringEscaped(x: string, c: char, tail: string, t: string, rest: string, q: nat)
    requires q > |x| && x != [] && x[0] == '\\'
    requires ParseEscape(x[1..], q) == Ok((c, tail)) && ParseString(tail, q) == Ok((t, rest))
    ensures ParseString(x, q) == Ok(([c] + t, rest))
  {
  }

  /** The closing quote. */
  lemma StringEnd(x: string, rest: string, q: nat)
    requires q > |x| && x != [] && x[0] == '"' && x[1..] == rest
    ensures ParseString(x, q) == Ok(([], rest))
  {
  }

  /** The decoder reads a written `\u00XX` escape back. */
  lemma UnicodeEscapeOf(c: char, tail: string)
    requires c < ' ' && tail != []
    ensures var u := [HexDigit(c as int / 16), HexDigit(c as int % 16)];
            ParseEscape("u00" + u + tail, |"u00" + u + tail| + 1) == Ok((c, tail))
  {
    var h1, h0 := HexDigit(c as int / 16), HexDigit(c as int % 16);
    var e := "u00" + [h1, h0] + tail;
    var w := ['0', '0', h1, h0] + tail;
    assert e[1..] == w;
    assert IsHex4(w) && w[..4] == ['0', '0', h1, h0] && w[4..] == tail;
    assert Hex4Value(w[..4]) == c as int;
  }

  /** The decoder reads one written character back. */
  lemma EscapeCharOf(c: char, tail: string, q: nat)
    requires q > |EscapeChar(c) + tail| && tail != []
    ensures var x := EscapeChar(c) + tail;
            x != [] && x[0] != '"'
            && (x[0] == '\\' ==> ParseEscape(x[1..], q) == Ok((c, tail)))
            && (x[0] != '\\' ==> x[0] == c && c >= ' ' && x[1..] == tail)
  {
    var x := EscapeChar(c) + tail;
    if c == '"' || c == '\\' {
      Framed("\\", [c], [], tail);
      assert x == "\\" + [c] + [] + tail;
    } else if c < ' ' {
      var u := [HexDigit(c as int / 16), HexDigit(c as int % 16)];
      assert x == "\\" + ("u00" + u + tail);
      Cons1("\\", "u00" + u + tail);
      UnicodeEscapeOf(c, tail);
    } else {
      Cons1([c], tail);
    }
  }

  /** The decoder reads an escaped string back up to its closing quote. */
  lemma {:induction false} ParseEscaped(s: string, rest: string, q: nat)
    requires q > |Escape(s)| + 1 + |rest|
    ensures ParseString(Escape(s) + "\"" + rest, q) == Ok((s, rest))
    decreases |s|
  {
    var x := Escape(s) + "\"" + rest;
    if s == [] {
      Cons1("\"", rest);
      StringEnd(x, rest, q);
    } else {
      var c := s[0];
      var tail := Escape(s[1..]) + "\"" + rest;
      Assoc4(EscapeChar(c), Escape(s[1..]), "\"", rest);
      EscapeCharOf(c, tail, q);
      ParseEscaped(s[1..], rest, q);
      if x[0] == '\\' {
        StringEscaped(x, c, tail, s[1..], rest, q);
      } else {
        StringPlain(x, tail, s[1..], rest, q);
      }
      HeadTail(s);
    }
  }

  /** A written natural number followed by a non-digit: where its digits end,
      and that their value is the number. */
  lemma DigitsOf(n: nat, rest: string)
    requires rest == [] || !IsDigit(rest[0])
    ensures var ds, w := NatToString(n), NatToString(n) + rest;
            w != [] && IsDigit(w[0]) && CountDigits(w) == |ds|
            && w[..|ds|] == ds && w[|ds|..] == rest && DigitsValue(ds) == n
  {
    var ds := NatToString(n);
    CountDigitsOf(ds, rest);
    Split1(ds, rest);
    assert (ds + rest)[..|ds|] == ds && (ds + rest)[|ds|..] == rest;
  }

  /** The integer part of a written integer is read back whole. */
  lemma ScanSigned(i: int, v: string)
    requires v == [] || !IsDigit(v[0])
    ensures var s, ds := IntToString(i) + v, NatToString(if i < 0 then -i else i);
            StartsNumber(s) && (s[0] == '-' <==> i < 0)
            && ScanIntegerPart(if i < 0 then s[1..] else s) == (ds, v)
            && DigitsValue(ds) == (if i < 0 then -i else i)
  {
    var r := IntToString(i);
    var ds := NatToString(if i < 0 then -i else i);
    Split1(r, v);
    DigitsOf(if i < 0 then -i else i, v);
    if i < 0 {
      assert r[1..] == ds;
    } else {
      assert r == ds;
    }
    var t := ds + v;
    if t[0] != '0' {
      assert CountDigits(t) == |ds|;
    } else {
      assert ds == "0";
    }
  }

  /** The decoder reads a written integer back. */
  lemma ScanInt(i: int, rest: string)
    requires Delimited(rest)
    ensures StartsNumber(IntToString(i) + rest)
    ensures ScanNumber(IntToString(i) + rest) == (JInt(i), rest)
  {
    var ds := NatToString(if i < 0 then -i else i);
    ScanSigned(i, rest);
    Unsuffixed(rest);
    ScanWhole(IntToString(i) + rest, ds, rest, None);
    assert ds + [] == ds;
  }

  /** A delimiter after the digits means no fraction and no exponent. */
  lemma Unsuffixed(rest: string)
    requires Delimited(rest)
    ensures ScanFraction(rest) == ([], rest) && ScanExponent(rest) == None
  {
  }

  /** The decoder reads a written exponent back. */
  lemma ScanExponentOf(e: int, rest: string)
    requires Delimited(rest)
    ensures ScanExponent("e" + IntToString(e) + rest) == Some((e, rest))
  {
    var x := IntToString(e) + rest;
    Headed("e", IntToString(e), rest);
    Split1(IntToString(e), rest);
    var n := if e < 0 then -e else e;
    DigitsOf(n, rest);
    if e < 0 {
      assert x[1..] == NatToString(n) + rest;
    } else {
      assert x == NatToString(n) + rest;
    }
  }

  /** The decoder reads a written decimal back. */
  lemma ScanDecimal(m: int, e: int, rest: string)
    requires Delimited(rest)
    ensures StartsNumber(IntToString(m) + "e" + IntToString(e) + rest)
    ensures ScanNumber(IntToString(m) + "e" + IntToString(e) + rest) == (JDecimal(m, e), rest)
  {
    var v := "e" + IntToString(e) + rest;
    var s := IntToString(m) + "e" + IntToString(e) + rest;
    var ds := NatToString(if m < 0 then -m else m);
    DecimalParts(m, e, rest);
    ScanWhole(s, ds, v, Some((e, rest)));
    assert ds + [] == ds;
  }

  /** The parts the decoder finds in a written decimal. */
  lemma DecimalParts(m: int, e: int, rest: string)
    requires Delimited(rest)
    ensures var v, ds := "e" + IntToString(e) + rest, NatToString(if m < 0 then -m else m);
      var s := IntToString(m) + "e" + IntToString(e) + rest;
      && StartsNumber(s) && (s[0] == '-' <==> m < 0)
      && ScanIntegerPart(if m < 0 then s[1..] else s) == (ds, v)
      && DigitsValue(ds) == (if m < 0 then -m else m)
      && ScanFraction(v) == ([], v) && ScanExponent(v) == Some((e, rest))
  {
    var v := "e" + IntToString(e) + rest;
    Assoc4(IntToString(m), "e", IntToString(e), rest);
    ScanSigned(m, v);
    assert ScanFraction(v) == ([], v);
    ScanExponentOf(e, rest);
  }

  /** How `ScanNumber` assembles its parts when there is no fraction. */
  lemma ScanWhole(s: string, ds: string, v: string, exp: Option<(int, string)>)
    requires StartsNumber(s)
    requires ScanIntegerPart(if s[0] == '-' then s[1..] else s) == (ds, v)
    requires ScanFraction(v) == ([], v) && ScanExponent(v) == exp
    ensures AllDigits(ds + [])
    ensures ScanNumber(s) == (MakeNumber(s[0] == '-', ds, [], if exp.Some? then Some(exp.value.0) else None),
                              if exp.Some? then exp.value.1 else v)
  {
  }

  /** A value starting with a digit or a minus sign is not one of the
      bare words. */
  lemma NotAWord(s: string)
    requires |s| > 0 && (s[0] == '-' || IsDigit(s[0]))
    ensures !StartsWith(s, "null") && !StartsWith(s, "true") && !StartsWith(s, "false")
  {
    DiffersAt(s, "null", 0);
    DiffersAt(s, "true", 0);
    DiffersAt(s, "false", 0);
  }

  lemma ParseNumberText(s: string)
    requires StartsNumber(s)
    ensures ParseValue(s) == Ok(ScanNumber(s))
  {
    NotAWord(s);
  }

  lemma ParseNonFinite(nf: NonFinite, rest: string)
    ensures ParseValue(SerializeNonFinite(nf) + rest) == Ok((JNonFinite(nf), rest))
  {
    var p := SerializeNonFinite(nf);
    var s := p + rest;
    PrefixOf(p, rest);
    DiffersAt(s, "null", 0);
    DiffersAt(s, "true", 0);
    DiffersAt(s, "false", 0);
    assert !StartsNumber(s);
    match nf
    case NaN =>
    case PosInfinity =>
      DiffersAt(s, "NaN", 0);
    case NegInfinity =>
      DiffersAt(s, "NaN", 0);
      DiffersAt(s, "Infinity", 0);
  }

  lemma ParseWord(v: Json, rest: string)
    requires v.JNull? || v.JBool?
    ensures ParseValue(Serialize(v) + rest) == Ok((v, rest))
  {
    var p := Serialize(v);
    var s := p + rest;
    PrefixOf(p, rest);
    if v.JBool? {
      DiffersAt(s, "null", 0);
      if !v.b {
        DiffersAt(s, "true", 0);
      }
    }
  }

  /** Reading a string value whose characters are read. */
  lemma StringOf(s: string, str: string, rest: string)
    requires s != [] && s[0] == '"'
    requires ParseString(s[1..], |s|) == Ok((str, rest))
    ensures ParseValue(s) == Ok((JString(str), rest))
  {
  }

  /** Reading an array's elements, one step: after an element comes `]`. */
  lemma ElementsLast(s: string, v: Json, u: string, rest: string)
    requires u != [] && u[0] == ']' && u[1..] == rest
    requires SkipWs(u) == u && ParseValue(s) == Ok((v, u))
    ensures ParseElements(s) == Ok(([v], rest))
  {
  }

  /** Reading an array's elements, one step: after an element comes `,`. */
  lemma ElementsNext(s: string, v: Json, u: string, tail: string, vs: seq<Json>, rest: string)
    requires u != [] && u[0] == ',' && u[1..] == tail
    requires SkipWs(u) == u && SkipWs(tail) == tail
    requires ParseValue(s) == Ok((v, u))
    requires ParseElements(tail) == Ok((vs, rest))
    ensures ParseElements(s) == Ok(([v] + vs, rest))
  {
    assert MoreElements(v, tail) == Ok(([v] + vs, rest));
    assert ElementsAfter(v, u) == Ok(([v] + vs, rest));
  }

  /** Reading an object's members, one step: after a member comes `}`. */
  lemma MembersLast(s: string, m: (string, Json), u: string, rest: string)
    requires s != [] && s[0] == '"'
    requires u != [] && u[0] == '}' && u[1..] == rest
    requires SkipWs(u) == u && ParseMember(s) == Ok((m, u))
    ensures ParseMembers(s) == Ok(([m], rest))
  {
  }

  /** A member text `s` followed by `u`, a comma with no white space around it, then `tail`, the next member. */
  predicate Glued(s: string, u: string, tail: string)
  {
    s != [] && s[0] == '"' && u != [] && u[0] == ',' && u[1..] == tail
    && tail != [] && tail[0] == '"' && SkipWs(u) == u && SkipWs(tail) == tail
  }

  /** Reading an object's members, one step: after a member comes `,`. */
  lemma MembersNext(s: string, m: (string, Json), u: string, tail: string,
                    ms: seq<(string, Json)>, rest: string)
    requires Glued(s, u, tail)
    requires ParseMember(s) == Ok((m, u))
    requires ParseMembers(tail) == Ok((ms, rest))
    ensures ParseMembers(s) == Ok(([m] + ms, rest))
  {
    assert MoreMembers(m, tail) == Ok(([m] + ms, rest));
    assert NextMember(m, tail) == Ok(([m] + ms, rest));
    assert MembersAfter(m, u) == Ok(([m] + ms, rest));
  }

  /** Reading one member whose name and value are read. */
  lemma MemberStep(s: string, k: string, t: string, w: string, v: Json, after: string)
    requires s != [] && s[0] == '"'
    requires ParseString(s[1..], |s|) == Ok((k, t))
    requires t != [] && t[0] == ':' && t[1..] == w
    requires SkipWs(t) == t && SkipWs(w) == w
    requires ParseValue(w) == Ok((v, after))
    ensures ParseMember(s) == Ok(((k, v), after))
  {
  }

  /** Reading an array whose elements are read. */
  lemma ArrayOf(s: string, t: string, items: seq<Json>, rest: string)
    requires SkipWs(t) == t
    requires s != [] && s[0] == '[' && s[1..] == t
    requires t != [] && !IsJsonSpace(t[0]) && t[0] != ']'
    requires ParseElements(t) == Ok((items, rest))
    ensures ParseValue(s) == Ok((JArray(items), rest))
  {
    ValueOpensArray(s);
  }

  lemma ValueOpensArray(s: string)
    requires s != [] && s[0] == '['
    ensures ParseValue(s) == ParseArray(s[1..])
  {
  }

  lemma ValueOpensObject(s: string)
    requires s != [] && s[0] == '{'
    ensures ParseValue(s) == ParseObject(s[1..])
  {
  }

  /** Reading an empty array. */
  lemma EmptyArrayOf(s: string, t: string, rest: string)
    requires SkipWs(t) == t
    requires s != [] && s[0] == '[' && s[1..] == t
    requires t != [] && t[0] == ']' && t[1..] == rest
    ensures ParseValue(s) == Ok((JArray([]), rest))
  {
    ValueOpensArray(s);
  }

  /** Reading an object whose members are read. */
  lemma ObjectOf(s: string, t: string, ms: seq<(string, Json)>, rest: string)
    requires SkipWs(t) == t
    requires s != [] && s[0] == '{' && s[1..] == t
    requires t != [] && t[0] == '"'
    requires ParseMembers(t) == Ok((ms, rest))
    ensures ParseValue(s) == Ok((JObject(FromPairs(ms)), rest))
  {
    ValueOpensObject(s);
  }

  /** Reading an empty object. */
  lemma EmptyObjectOf(s: string, t: string, rest: string)
    requires SkipWs(t) == t
    requires s != [] && s[0] == '{' && s[1..] == t
    requires t != [] && t[0] == '}' && t[1..] == rest
    ensures ParseValue(s) == Ok((JObject([]), rest))
  {
    ValueOpensObject(s);
  }

  /** Decoding the text of a value, followed by a delimiter, gives back the
      value and the delimiter. */
  lemma {:induction false} ParseSerialized(v: Json, rest: string)
    requires Valid(v) && Delimited(rest)
    ensures ParseValue(Serialize(v) + rest) == Ok((v, rest))
    decreases v, 2
  {
    match v
    case JNull =>
      ParseWord(v, rest);
    case JBool(_) =>
      ParseWord(v, rest);
    case JInt(i) =>
      ScanInt(i, rest);
      ParseNumberText(IntToString(i) + rest);
    case JDecimal(m, e) =>
      ScanDecimal(m, e, rest);
      ParseNumberText(IntToString(m) + "e" + IntToString(e) + rest);
    case JNonFinite(nf) =>
      ParseNonFinite(nf, rest);
    case JString(str) =>
      var s := "\"" + Escape(str) + "\"" + rest;
      Framed("\"", Escape(str), "\"", rest);
      ParseEscaped(str, rest, |s|);
      StringOf(s, str, rest);
    case JArray(items) =>
      ParseSerializedArray(items, rest);
    case JObject(ms) =>
      ParseSerializedObject(ms, rest);
  }

  lemma {:induction false} ParseSerializedArray(items: seq<Json>, rest: string)
    requires forall i :: 0 <= i < |items| ==> Valid(items[i])
    requires Delimited(rest)
    ensures ParseValue("[" + SerializeItems(items) + "]" + rest) == Ok((JArray(items), rest))
    decreases items, 1
  {
    if items == [] {
      EmptyArrayRead(rest);
    } else {
      ParseSerializedItems(items, rest);
      ArrayRead(SerializeItems(items), items, rest);
    }
  }

  /** Reading `[]` followed by `rest`. */
  lemma EmptyArrayRead(rest: string)
    requires Delimited(rest)
    ensures ParseValue("[" + "" + "]" + rest) == Ok((JArray([]), rest))
  {
    Opened("[", "", "]", rest);
    EmptyArrayOf("[" + "" + "]" + rest, "" + "]" + rest, rest);
  }

  /** Reading `[`, elements whose text is `x`, `]` and `rest`. */
  lemma ArrayRead(x: string, items: seq<Json>, rest: string)
    requires x != [] && !IsJsonSpace(x[0]) && x[0] != ']'
    requires ParseElements(x + "]" + rest) == Ok((items, rest))
    ensures ParseValue("[" + x + "]" + rest) == Ok((JArray(items), rest))
  {
    Opened("[", x, "]", rest);
    ArrayOf("[" + x + "]" + rest, x + "]" + rest, items, rest);
  }

  lemma {:induction false} ParseSerializedObject(ms: seq<(string, Json)>, rest: string)
    requires DistinctKeys(ms) && forall i :: 0 <= i < |ms| ==> Valid(ms[i].1)
    requires Delimited(rest)
    ensures ParseValue("{" + SerializeMembers(ms) + "}" + rest) == Ok((JObject(ms), rest))
    decreases ms, 1
  {
    if ms == [] {
      EmptyObjectRead(rest);
    } else {
      ParseSerializedMembers(ms, rest);
      ObjectRead(SerializeMembers(ms), ms, rest);
      FromDistinctPairs(ms);
    }
  }

  /** Reading `{}` followed by `rest`. */
  lemma EmptyObjectRead(rest: string)
    requires Delimited(rest)
    ensures ParseValue("{" + "" + "}" + rest) == Ok((JObject([]), rest))
  {
    Opened("{", "", "}", rest);
    EmptyObjectOf("{" + "" + "}" + rest, "" + "}" + rest, rest);
  }

  /** Reading `{`, members whose text is `x`, `}` and `rest`. */
  lemma ObjectRead(x: string, ms: seq<(string, Json)>, rest: string)
    requires x != [] && x[0] == '"'
    requires ParseMembers(x + "}" + rest) == Ok((ms, rest))
    ensures ParseValue("{" + x + "}" + rest) == Ok((JObject(FromPairs(ms)), rest))
  {
    Opened("{", x, "}", rest);
    ObjectOf("{" + x + "}" + rest, x + "}" + rest, ms, rest);
  }

  lemma {:induction false} ParseSerializedItems(items: seq<Json>, rest: string)
    requires |items| > 0 && Delimited(rest)
    requires forall i :: 0 <= i < |items| ==> Valid(items[i])
    ensures SerializeItems(items) != [] && !IsJsonSpace(SerializeItems(items)[0])
    ensures SerializeItems(items)[0] != ']'
    ensures ParseElements(SerializeItems(items) + "]" + rest) == Ok((items, rest))
    decreases items, 0
  {
    var a := Serialize(items[0]);
    if |items| == 1 {
      assert SerializeItems(items) == a;
      ParseSerialized(items[0], "]" + rest);
      ItemsOne(a, items[0], rest);
      Single(items);
    } else {
      var x := SerializeItems(items[1..]);
      var u := "," + (x + "]" + rest);
      ParseSerializedItems(items[1..], rest);
      ParseSerialized(items[0], u);
      ItemsStep(a, x, items[0], items[1..], rest);
      HeadTail(items);
    }
  }

  /** Reading a last item and the `]` after it. */
  lemma ItemsOne(a: string, v: Json, rest: string)
    requires a != []
    requires ParseValue(a + ("]" + rest)) == Ok((v, "]" + rest))
    ensures ParseElements(a + "]" + rest) == Ok(([v], rest))
  {
    Ended(a, "]", rest);
    ElementsLast(a + ("]" + rest), v, "]" + rest, rest);
  }

  /** Reading an item, a comma and further items. */
  lemma ItemsStep(a: string, x: string, v: Json, vs: seq<Json>, rest: string)
    requires a != [] && x != [] && !IsJsonSpace(x[0])
    requires ParseValue(a + ("," + (x + "]" + rest))) == Ok((v, "," + (x + "]" + rest)))
    requires ParseElements(x + "]" + rest) == Ok((vs, rest))
    ensures ParseElements(a + "," + x + "]" + rest) == Ok(([v] + vs, rest))
  {
    Joined(a, ",", x, "]", rest);
    ElementsNext(a + ("," + (x + "]" + rest)), v, "," + (x + "]" + rest), x + "]" + rest, vs, rest);
  }

  lemma {:induction false} ParseSerializedMembers(ms: seq<(string, Json)>, rest: string)
    requires |ms| > 0 && Delimited(rest)
    requires forall i :: 0 <= i < |ms| ==> Valid(ms[i].1)
    ensures SerializeMembers(ms) != [] && SerializeMembers(ms)[0] == '"'
    ensures ParseMembers(SerializeMembers(ms) + "}" + rest) == Ok((ms, rest))
    decreases ms, 0
  {
    var a := SerializeMember(ms[0]);
    if |ms| == 1 {
      assert SerializeMembers(ms) == a;
      MemberOf(ms[0], "}" + rest);
      MembersOne(a, ms[0], rest);
      Single(ms);
    } else {
      var x := SerializeMembers(ms[1..]);
      var u := "," + (x + "}" + rest);
      ParseSerializedMembers(ms[1..], rest);
      MemberOf(ms[0], u);
      Joined(a, ",", x, "}", rest);
      MembersNext(a + u, ms[0], u, x + "}" + rest, ms[1..], rest);
      HeadTail(ms);
    }
  }

  /** Reading a last member and the `}` after it. */
  lemma MembersOne(a: string, m: (string, Json), rest: string)
    requires a != [] && a[0] == '"'
    requires ParseMember(a + ("}" + rest)) == Ok((m, "}" + rest))
    ensures ParseMembers(a + "}" + rest) == Ok(([m], rest))
  {
    Ended(a, "}", rest);
    MembersLast(a + ("}" + rest), m, "}" + rest, rest);
  }

    /** Reading one member `"key":value` written by the encoder. */
  lemma {:induction false} MemberOf(m: (string, Json), after: string)
    requires Valid(m.1) && Delimited(after)
    ensures SerializeMember(m) != [] && SerializeMember(m)[0] == '"'
    ensures ParseMember(SerializeMember(m) + after) == Ok((m, after))
    decreases m, 0
  {
    var k, sv := Escape(m.0), Serialize(m.1);
    var s := SerializeMember(m) + after;
    var w := sv + after;
    var t := ":" + w;
    Member("\"", k, ":", sv, after);
    Assoc(k, "\"", t);
    ParseEscaped(m.0, t, |s|);
    Headed(":", sv, after);
    Split1(sv, after);
    ParseSerialized(m.1, after);
    NoSpace(t);
    NoSpace(w);
    MemberStep(s, m.0, t, w, m.1, after);
  }

  /** Decoding the encoder's text of a decoded-shape value gives it back. */
  lemma RoundTrip(v: Json)
    requires Valid(v)
    ensures ParseJson(Serialize(v)) == Ok(v)
  {
    assert Serialize(v) + [] == Serialize(v);
    ParseSerialized(v, []);
    DocumentRead(Serialize(v), v);
  }

  /** A document holding one value and nothing after it is read whole. */
  lemma DocumentRead(s: string, v: Json)
    requires s != [] && s[0] != '\U{FEFF}' && !IsJsonSpace(s[0])
    requires ParseValue(s) == Ok((v, []))
    ensures ParseJson(s) == Ok(v)
  {
    NoSpace(s);
  }
}
