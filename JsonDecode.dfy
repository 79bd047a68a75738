/** The decoder behind Python's `json.loads(text)`: the scanner of CPython's
    `json` package (recursive descent over the text), building `Json`
    values. Each scanning function takes the unread rest of the document
    and returns the value it read with the rest after it. */
module JsonDecode {
  import opened Wrappers
  import opened Text
  import opened Dicts
  import opened Json

  /** A scanning failure: the decoder's message and the number of
      characters of the document still unread where it was detected. */
  datatype Failure = Failure(msg: string, restLen: nat)

  /** `json.JSONDecodeError`: message, character offset, line and column. */
  datatype DecodeError = DecodeError(msg: string, pos: nat, lineno: nat, colno: nat)

  /** White space between JSON tokens (RFC 8259 section 2). */
  predicate IsJsonSpace(c: char) {
    c == ' ' || c == '\t' || c == '\n' || c == '\r'
  }

  function SkipWs(s: string): (r: string)
    ensures |r| <= |s| && r == s[|s| - |r|..]
    ensures r == [] || !IsJsonSpace(r[0])
    ensures s == [] || !IsJsonSpace(s[0]) ==> r == s
    ensures forall i :: 0 <= i < |s| - |r| ==> IsJsonSpace(s[i])
  {
    if s != [] && IsJsonSpace(s[0]) then
      var r := SkipWs(s[1..]);
      SpaceBefore(s, r);
      r
    else s
  }

  /** White space in front of a white-space prefix extends it. */
  lemma SpaceBefore(s: string, r: string)
    requires s != [] && IsJsonSpace(s[0]) && |r| <= |s| - 1
    requires forall i :: 0 <= i < |s| - 1 - |r| ==> IsJsonSpace(s[1..][i])
    ensures forall i :: 0 <= i < |s| - |r| ==> IsJsonSpace(s[i])
  {
    forall i | 0 <= i < |s| - |r|
      ensures IsJsonSpace(s[i])
    {
      if i > 0 {
        assert s[i] == s[1..][i - 1];
      }
    }
  }

  /** The character a one-letter escape `\x` stands for. */
  function SimpleEscape(c: char): Option<char> {
    match c
    case '"' => Some('"')
    case '\\' => Some('\\')
    case '/' => Some('/')
    case 'b' => Some('\U{8}')
    case 'f' => Some('\U{C}')
    case 'n' => Some('\n')
    case 'r' => Some('\r')
    case 't' => Some('\t')
    case _ => None
  }

  predicate IsHex4(s: string) {
    |s| >= 4 && IsHexDigit(s[0]) && IsHexDigit(s[1]) && IsHexDigit(s[2]) && IsHexDigit(s[3])
  }

  /** The `\uXXXX` escape, `s` being the text after `\u` and `escLen` the
      unread length at the backslash. The four digits must be followed by
      more text, and an error is reported at the `u`. A high surrogate must
      be followed by a `\uXXXX` low surrogate with more text after it; the
      pair stands for one character. A second escape too near the end is
      reported as invalid at its own `u`. */
  function ParseUnicodeEscape(s: string, escLen: nat): (r: Result<(char, string), Failure>)
    requires escLen == |s| + 2
    ensures r.Ok? ==> |r.value.1| < |s|
    ensures r.Err? ==> r.error.restLen <= escLen
  {
    if |s| <= 4 || !IsHex4(s) then Err(Failure("Invalid \\uXXXX escape", escLen - 1))
    else
      var hi := Hex4Value(s[..4]);
      var rest := s[4..];
      if 0xD800 <= hi <= 0xDBFF then
        if |rest| > 6 && rest[0] == '\\' && rest[1] == 'u' then
          if !IsHex4(rest[2..]) then Err(Failure("Invalid \\uXXXX escape", |rest| - 1))
          else
            var lo := Hex4Value(rest[2..6]);
            if 0xDC00 <= lo <= 0xDFFF then
              Ok(((0x10000 + (hi - 0xD800) * 0x400 + (lo - 0xDC00)) as char, rest[6..]))
            else Err(Failure("Lone surrogate in \\uXXXX escape", escLen))
        else if |rest| >= 2 && rest[0] == '\\' && rest[1] == 'u' then
          Err(Failure("Invalid \\uXXXX escape", |rest| - 1))
        else Err(Failure("Lone surrogate in \\uXXXX escape", escLen))
      else if 0xDC00 <= hi <= 0xDFFF then Err(Failure("Lone surrogate in \\uXXXX escape", escLen))
      else Ok((hi as char, rest))
  }

  /** An escape sequence, `s` being the text after the backslash and
      `quoteLen` the unread length at the string's opening quote. */
  function ParseEscape(s: string, quoteLen: nat): (r: Result<(char, string), Failure>)
    requires quoteLen > |s|
    ensures r.Ok? ==> |r.value.1| < |s|
    ensures r.Err? ==> r.error.restLen <= quoteLen
  {
    if s == [] then Err(Failure("Unterminated string starting at", quoteLen))
    else if s[0] == 'u' then ParseUnicodeEscape(s[1..], |s| + 1)
    else match SimpleEscape(s[0])
      case Some(c) => Ok((c, s[1..]))
      case None => Err(Failure("Invalid \\escape", |s| + 1))
  }

  /** The contents of a string literal, `s` being the text after its opening
      quote: returns the decoded characters and the text after the closing
      quote. Control characters must be escaped. */
  function ParseString(s: string, quoteLen: nat): (r: Result<(string, string), Failure>)
    requires quoteLen > |s|
    ensures r.Ok? ==> |r.value.1| < |s|
    ensures r.Err? ==> r.error.restLen <= quoteLen
    decreases |s|
  {
    if s == [] then Err(Failure("Unterminated string starting at", quoteLen))
    else if s[0] == '"' then Ok(([], s[1..]))
    else if s[0] == '\\' then
      match ParseEscape(s[1..], quoteLen)
      case Err(f) => Err(f)
      case Ok((c, rest)) =>
        match ParseString(rest, quoteLen)
        case Err(f) => Err(f)
        case Ok((t, rest')) => Ok(([c] + t, rest'))
    else if s[0] < ' ' then Err(Failure("Invalid control character at", |s|))
    else
      match ParseString(s[1..], quoteLen)
      case Err(f) => Err(f)
      case Ok((t, rest')) => Ok(([s[0]] + t, rest'))
  }

  /** The text starts like a number: an optional minus and a digit. */
  predicate StartsNumber(s: string) {
    (|s| >= 1 && IsDigit(s[0])) || (|s| >= 2 && s[0] == '-' && IsDigit(s[1]))
  }

  /** The fraction part `.digits`, if present: its digits and the rest. */
  function ScanFraction(u: string): (r: (string, string))
    ensures AllDigits(r.0)
    ensures r.0 == [] ==> r.1 == u
    ensures r.0 != [] ==> u == ['.'] + r.0 + r.1
  {
    if |u| >= 2 && u[0] == '.' && IsDigit(u[1]) then
      var n := CountDigits(u[1..]);
      assert u == ['.'] + u[1..][..n] + u[1 + n..];
      (u[1..][..n], u[1 + n..])
    else ([], u)
  }

  /** The exponent part `e[+-]digits` (either case of `e`), if present: its
      value and the rest. */
  function ScanExponent(v: string): (r: Option<(int, string)>)
    ensures r.Some? ==> |r.value.1| < |v|
  {
    if |v| >= 2 && (v[0] == 'e' || v[0] == 'E') then ScanSignedDigits(v[1..]) else None
  }

  /** `[+-]?digits`: the value and the rest, if there is at least one digit. */
  function ScanSignedDigits(x: string): (r: Option<(int, string)>)
    ensures r.Some? ==> |r.value.1| < |x|
  {
    var w := if x != [] && (x[0] == '+' || x[0] == '-') then x[1..] else x;
    if w != [] && IsDigit(w[0]) then
      var n := CountDigits(w);
      var magnitude: int := DigitsValue(w[..n]);
      Some((if x[0] == '-' then -magnitude else magnitude, w[n..]))
    else None
  }

  /** The integer part `0|[1-9][0-9]*` of a number: its digits and the
      rest. */
  function ScanIntegerPart(t: string): (r: (string, string))
    requires t != [] && IsDigit(t[0])
    ensures r.0 != [] && AllDigits(r.0) && t == r.0 + r.1
  {
    var n := if t[0] == '0' then 1 else CountDigits(t);
    assert t == t[..n] + t[n..];
    (t[..n], t[n..])
  }

  /** The number with the given sign, digits and exponent: an `int` when it
      has neither fraction nor exponent, otherwise a `float`. */
  function MakeNumber(neg: bool, intDigits: string, fracDigits: string, exp: Option<int>): (j: Json)
    requires AllDigits(intDigits + fracDigits)
    ensures j.JInt? || j.JDecimal?
  {
    var sign := if neg then -1 else 1;
    var magnitude := DigitsValue(intDigits + fracDigits);
    match exp
    case Some(e) => JDecimal(sign * magnitude, e - |fracDigits|)
    case None =>
      if fracDigits == [] then JInt(sign * magnitude)
      else JDecimal(sign * magnitude, -|fracDigits|)
  }

  /** A number: `-?(0|[1-9][0-9]*)(\.[0-9]+)?([eE][-+]?[0-9]+)?`. */
  function ScanNumber(s: string): (r: (Json, string))
    requires StartsNumber(s)
    ensures |r.1| < |s|
    ensures r.0.JInt? || r.0.JDecimal?
  {
    var neg := s[0] == '-';
    var (intDigits, u) := ScanIntegerPart(if neg then s[1..] else s);
    var (fracDigits, v) := ScanFraction(u);
    var exp := ScanExponent(v);
    (MakeNumber(neg, intDigits, fracDigits, if exp.Some? then Some(exp.value.0) else None),
     if exp.Some? then exp.value.1 else v)
  }

  /** One JSON value at the start of `s` (no white space before it). */
  function ParseValue(s: string): (r: Result<(Json, string), Failure>)
    ensures r.Ok? ==> |r.value.1| < |s| && Valid(r.value.0)
    ensures r.Ok? && s[0] == '{' ==> r.value.0.JObject?
    ensures r.Ok? && s[0] == '[' ==> r.value.0.JArray?
    ensures r.Ok? && s[0] == '"' ==> r.value.0.JString?
    ensures r.Err? ==> r.error.restLen <= |s|
    decreases |s|, 0
  {
    if s == [] then Err(Failure("Expecting value", 0))
    else if s[0] == '"' then
      match ParseString(s[1..], |s|)
      case Err(f) => Err(f)
      case Ok((str, rest)) => Ok((JString(str), rest))
    else if s[0] == '{' then ParseObject(s[1..])
    else if s[0] == '[' then ParseArray(s[1..])
    else if StartsWith(s, "null") then Ok((JNull, s[4..]))
    else if StartsWith(s, "true") then Ok((JBool(true), s[4..]))
    else if StartsWith(s, "false") then Ok((JBool(false), s[5..]))
    else if StartsNumber(s) then Ok(ScanNumber(s))
    else if StartsWith(s, "NaN") then Ok((JNonFinite(NaN), s[3..]))
    else if StartsWith(s, "Infinity") then Ok((JNonFinite(PosInfinity), s[8..]))
    else if StartsWith(s, "-Infinity") then Ok((JNonFinite(NegInfinity), s[9..]))
    else Err(Failure("Expecting value", |s|))
  }

  /** An array, `s` being the text after its `[`. */
  function ParseArray(s: string): (r: Result<(Json, string), Failure>)
    ensures r.Ok? ==> |r.value.1| < |s| && Valid(r.value.0) && r.value.0.JArray?
    ensures r.Err? ==> r.error.restLen <= |s|
    decreases |s|, 2
  {
    var t := SkipWs(s);
    if t != [] && t[0] == ']' then Ok((JArray([]), t[1..]))
    else
      match ParseElements(t)
      case Err(f) => Err(f)
      case Ok((items, rest)) => Ok((JArray(items), rest))
  }

  /** The elements of a non-empty array and its closing `]`. */
  function ParseElements(s: string): (r: Result<(seq<Json>, string), Failure>)
    ensures r.Ok? ==> |r.value.1| < |s|
    ensures r.Ok? ==> forall i :: 0 <= i < |r.value.0| ==> Valid(r.value.0[i])
    ensures r.Err? ==> r.error.restLen <= |s|
    decreases |s|, 1
  {
    match ParseValue(s)
    case Err(f) => Err(f)
    case Ok((v, rest)) => ElementsAfter(v, rest)
  }

  /** The elements that follow the element `v`, `rest` being the text after
      it: a `]` ends the array, a `,` is followed by the next element. */
  function ElementsAfter(v: Json, rest: string): (r: Result<(seq<Json>, string), Failure>)
    requires Valid(v)
    ensures r.Ok? ==> |r.value.1| < |rest|
    ensures r.Ok? ==> forall i :: 0 <= i < |r.value.0| ==> Valid(r.value.0[i])
    ensures r.Err? ==> r.error.restLen <= |rest|
    decreases |rest|, 3
  {
    var t := SkipWs(rest);
    if t != [] && t[0] == ']' then Ok(([v], t[1..]))
    else if t != [] && t[0] == ',' then MoreElements(v, SkipWs(t[1..]))
    else Err(Failure("Expecting ',' delimiter", |t|))
  }

  /** The element `v` followed by the elements read from `w`. */
  function MoreElements(v: Json, w: string): (r: Result<(seq<Json>, string), Failure>)
    requires Valid(v)
    ensures r.Ok? ==> |r.value.1| < |w|
    ensures r.Ok? ==> forall i :: 0 <= i < |r.value.0| ==> Valid(r.value.0[i])
    ensures r.Err? ==> r.error.restLen <= |w|
    decreases |w|, 2
  {
    match ParseElements(w)
    case Err(f) => Err(f)
    case Ok((vs, rest)) =>
      ElementsValid(v, vs);
      Ok(([v] + vs, rest))
  }

  /** An element in front of valid elements keeps every element valid. */
  lemma ElementsValid(v: Json, vs: seq<Json>)
    requires Valid(v) && forall i :: 0 <= i < |vs| ==> Valid(vs[i])
    ensures forall i :: 0 <= i < |[v] + vs| ==> Valid(([v] + vs)[i])
  {
  }

  /** An object, `s` being the text after its `{`. Its members are turned
      into a dictionary: a repeated key keeps its last value. */
  function ParseObject(s: string): (r: Result<(Json, string), Failure>)
    ensures r.Ok? ==> |r.value.1| < |s| && Valid(r.value.0) && r.value.0.JObject?
    ensures r.Err? ==> r.error.restLen <= |s|
    decreases |s|, 2
  {
    var t := SkipWs(s);
    if t != [] && t[0] == '}' then Ok((JObject([]), t[1..]))
    else if t != [] && t[0] == '"' then
      match ParseMembers(t)
      case Err(f) => Err(f)
      case Ok((pairs, rest)) =>
        DictValid(pairs);
        Ok((JObject(FromPairs(pairs)), rest))
    else Err(Failure("Expecting property name enclosed in double quotes", |t|))
  }

  /** The dictionary built from valid members is a valid object. */
  lemma DictValid(pairs: seq<(string, Json)>)
    requires forall i :: 0 <= i < |pairs| ==> Valid(pairs[i].1)
    ensures Valid(JObject(FromPairs(pairs)))
  {
    var d := FromPairs(pairs);
    forall i | 0 <= i < |d| ensures Valid(d[i].1) {
      assert d[i] in pairs;
    }
  }

  /** One `"name": value` member, `s` starting at the name's quote. */
  function ParseMember(s: string): (r: Result<((string, Json), string), Failure>)
    requires s != [] && s[0] == '"'
    ensures r.Ok? ==> |r.value.1| < |s| && Valid(r.value.0.1)
    ensures r.Err? ==> r.error.restLen <= |s|
    decreases |s|, 0
  {
    match ParseString(s[1..], |s|)
    case Err(f) => Err(f)
    case Ok((key, rest)) =>
      var t := SkipWs(rest);
      if t == [] || t[0] != ':' then Err(Failure("Expecting ':' delimiter", |t|))
      else
        match ParseValue(SkipWs(t[1..]))
        case Err(f) => Err(f)
        case Ok((v, rest')) => Ok(((key, v), rest'))
  }

  /** The members of a non-empty object and its closing `}`, `s` starting
      at the first name's quote. */
  function ParseMembers(s: string): (r: Result<(seq<(string, Json)>, string), Failure>)
    requires s != [] && s[0] == '"'
    ensures r.Ok? ==> |r.value.1| < |s|
    ensures r.Ok? ==> forall i :: 0 <= i < |r.value.0| ==> Valid(r.value.0[i].1)
    ensures r.Err? ==> r.error.restLen <= |s|
    decreases |s|, 1
  {
    match ParseMember(s)
    case Err(f) => Err(f)
    case Ok((m, rest)) => MembersAfter(m, rest)
  }

  /** The members that follow the member `m`, `rest` being the text after
      it: a `}` ends the object, a `,` is followed by the next member. */
  function MembersAfter(m: (string, Json), rest: string): (r: Result<(seq<(string, Json)>, string), Failure>)
    requires Valid(m.1)
    ensures r.Ok? ==> |r.value.1| < |rest|
    ensures r.Ok? ==> forall i :: 0 <= i < |r.value.0| ==> Valid(r.value.0[i].1)
    ensures r.Err? ==> r.error.restLen <= |rest|
    decreases |rest|, 2
  {
    var u := SkipWs(rest);
    if u != [] && u[0] == '}' then Ok(([m], u[1..]))
    else if u != [] && u[0] == ',' then NextMember(m, u[1..])
    else Err(Failure("Expecting ',' delimiter", |u|))
  }

  /** The members after the member `m` and a comma, `t` being the text
      after the comma: the next name must start with a quote. */
  function NextMember(m: (string, Json), t: string): (r: Result<(seq<(string, Json)>, string), Failure>)
    requires Valid(m.1)
    ensures r.Ok? ==> |r.value.1| < |t|
    ensures r.Ok? ==> forall i :: 0 <= i < |r.value.0| ==> Valid(r.value.0[i].1)
    ensures r.Err? ==> r.error.restLen <= |t|
    decreases |t|, 3
  {
    var w := SkipWs(t);
    if w != [] && w[0] == '"' then MoreMembers(m, w)
    else Err(Failure("Expecting property name enclosed in double quotes", |w|))
  }

  /** The member `m` followed by the members read from `w`, which starts
      at the next name's quote. */
  function MoreMembers(m: (string, Json), w: string): (r: Result<(seq<(string, Json)>, string), Failure>)
    requires Valid(m.1) && w != [] && w[0] == '"'
    ensures r.Ok? ==> |r.value.1| < |w|
    ensures r.Ok? ==> forall i :: 0 <= i < |r.value.0| ==> Valid(r.value.0[i].1)
    ensures r.Err? ==> r.error.restLen <= |w|
    decreases |w|, 2
  {
    match ParseMembers(w)
    case Err(f) => Err(f)
    case Ok((ms, rest)) =>
      MembersValid(m, ms);
      Ok(([m] + ms, rest))
  }

  /** A member in front of valid members keeps every value valid. */
  lemma MembersValid(m: (string, Json), ms: seq<(string, Json)>)
    requires Valid(m.1) && forall i :: 0 <= i < |ms| ==> Valid(ms[i].1)
    ensures forall i :: 0 <= i < |[m] + ms| ==> Valid(([m] + ms)[i].1)
  {
  }

  /** `CountChar` counts the occurrences of `c`. */
  lemma {:induction false} CountCharIsCount(s: string, c: char)
    ensures CountChar(s, c) == multiset(s)[c]
    decreases |s|
  {
    if s != [] {
      var p := s[..|s| - 1];
      assert s == p + [s[|s| - 1]];
      CountCharIsCount(p, c);
    }
  }

  function CountChar(s: string, c: char): nat {
    if s == [] then 0 else CountChar(s[..|s| - 1], c) + (if s[|s| - 1] == c then 1 else 0)
  }

  /** `s.rfind(c)`: the last index of `c` in `s`, or -1. */
  function RFind(s: string, c: char): (r: int)
    ensures -1 <= r < |s|
    ensures r >= 0 ==> s[r] == c
    ensures forall i :: r < i < |s| ==> s[i] != c
  {
    if s == [] then -1
    else if s[|s| - 1] == c then |s| - 1
    else RFind(s[..|s| - 1], c)
  }

  /** The error the decoder raises for `msg` at offset `pos` of `doc`, with
      the 1-based line and column of that offset. */
  function MakeError(doc: string, msg: string, pos: nat): (e: DecodeError)
    requires pos <= |doc|
    ensures e.pos == pos && e.msg == msg
    ensures e.lineno == multiset(doc[..pos])['\n'] + 1
    ensures 1 <= e.colno <= pos + 1
    ensures forall i :: pos - e.colno < i < pos ==> doc[i] != '\n'
    ensures e.colno <= pos ==> doc[pos - e.colno] == '\n'
  {
    CountCharIsCount(doc[..pos], '\n');
    DecodeError(msg, pos, CountChar(doc[..pos], '\n') + 1, pos - RFind(doc[..pos], '\n'))
  }

  /** `str(e)` of a `json.JSONDecodeError`. */
  function DecodeMessage(e: DecodeError): string {
    e.msg + ": line " + NatToString(e.lineno) + " column " + NatToString(e.colno)
    + " (char " + NatToString(e.pos) + ")"
  }

  /** `json.loads(doc)`: one value, white space around it allowed, nothing
      else after it. */
  function ParseJson(doc: string): (r: Result<Json, DecodeError>)
    ensures r.Ok? ==> Valid(r.value)
    ensures r.Ok? && doc != [] && doc[0] == '{' ==> r.value.JObject?
    ensures r.Err? ==> r.error.pos <= |doc|
  {
    if doc != [] && doc[0] == '\U{FEFF}' then
      Err(MakeError(doc, "Unexpected UTF-8 BOM (decode using utf-8-sig)", 0))
    else
      var t := SkipWs(doc);
      match ParseValue(t)
      case Err(f) => Err(MakeError(doc, f.msg, |doc| - f.restLen))
      case Ok((v, rest)) =>
        var u := SkipWs(rest);
        if u == [] then Ok(v) else Err(MakeError(doc, "Extra data", |doc| - |u|))
  }
}
