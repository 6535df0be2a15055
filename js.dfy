/** The slice of JavaScript semantics the console relies on: dynamically typed
    values, truthiness and `||`, property access and object spread, and the
    string built-ins `startsWith`, `split`, `trim` and integer `toString`. */
module Js {

  datatype Option<T> = None | Some(value: T)

  /** A JavaScript value. Numbers are integers (the console never computes
      with fractions). `Enum(member)` is a member of a TypeScript enum whose
      runtime value is not part of this model; it is identified by its name. */
  datatype JsValue =
    | Undefined
    | Null
    | Bool(b: bool)
    | Num(n: int)
    | Str(s: string)
    | Enum(member: string)
    | Arr(items: seq<JsValue>)
    | Obj(fields: map<string, JsValue>)

  /** A plain JavaScript object: its own enumerable properties. */
  type Object = map<string, JsValue>

  /** JavaScript truthiness. Enum members count as truthy: no code in this
      model tests the truthiness of one. */
  predicate Truthy(v: JsValue) {
    match v
    case Undefined => false
    case Null => false
    case Bool(b) => b
    case Num(n) => n != 0
    case Str(s) => s != ""
    case _ => true
  }

  /** `a || b`. */
  function Or(a: JsValue, b: JsValue): (r: JsValue)
    ensures Truthy(a) ==> r == a
    ensures !Truthy(a) ==> r == b
  {
    if Truthy(a) then a else b
  }

  /** `o[k]` on an object: `undefined` when the property is missing. */
  function Prop(o: Object, k: string): JsValue {
    if k in o then o[k] else Undefined
  }

  /** `v.k` for a value that may or may not be an object. */
  function Member(v: JsValue, k: string): JsValue {
    if v.Obj? then Prop(v.fields, k) else Undefined
  }

  /** The properties that `{...v}` copies (none for `undefined`, `null` and numbers). */
  function SpreadOf(v: JsValue): Object {
    if v.Obj? then v.fields else map[]
  }

  /** An optional string (`s?: string`) as a JavaScript value. */
  function FromOptional(v: Option<string>): JsValue {
    if v.Some? then Str(v.value) else Undefined
  }

  /** A `string[]` as a JavaScript value. */
  function StrArray(xs: seq<string>): JsValue {
    Arr(seq(|xs|, i requires 0 <= i < |xs| => Str(xs[i])))
  }

  /** An object literal with an optional property: the key is present only
      when a value is given. */
  function WithOptional(o: Object, k: string, v: Option<JsValue>): Object {
    if v.Some? then o[k := v.value] else o
  }

  /** The keys of an object that reach the wire: `JSON.stringify` of a body
      and axios's query encoding both leave out keys whose value is `undefined`. */
  function OnTheWire(o: Object): (w: Object)
    ensures forall k :: k in w <==> k in o && o[k] != Undefined
    ensures forall k :: k in w ==> w[k] == o[k]
  {
    map k | k in o && o[k] != Undefined :: o[k]
  }

  /** `if (s)` for a `string | null`. */
  predicate Present(v: Option<string>) {
    v.Some? && v.value != ""
  }

  // ---------------------------------------------------------------------------
  // String.prototype.startsWith

  predicate StartsWith(s: string, prefix: string) {
    |prefix| <= |s| && s[..|prefix|] == prefix
  }

  lemma StartsWithTrans(s: string, p: string, q: string)
    requires StartsWith(s, p) && StartsWith(p, q)
    ensures StartsWith(s, q)
  {
    assert s[..|q|] == s[..|p|][..|q|];
  }

  lemma StartsWithConcat(p: string, rest: string)
    ensures StartsWith(p + rest, p)
  {
    assert (p + rest)[..|p|] == p;
  }

  // ---------------------------------------------------------------------------
  // String.prototype.split with a one-character separator

  /** The position of the first `c` in `s`. */
  function FirstIndex(s: string, c: char): (i: nat)
    requires c in s
    ensures i < |s| && s[i] == c
  {
    if s[0] == c then 0 else FirstIndex(s[1..], c) + 1
  }

  /** Nothing before the first `c` is a `c`. */
  lemma {:induction false} FirstIndexIsFirst(s: string, c: char)
    requires c in s
    ensures c !in s[..FirstIndex(s, c)]
  {
    if s[0] != c {
      FirstIndexIsFirst(s[1..], c);
      assert s[..FirstIndex(s, c)] == [s[0]] + s[1..][..FirstIndex(s[1..], c)];
    }
  }

  /** `s.split(sep)`: the pieces between separators, in order, empty pieces kept. */
  function Split(s: string, sep: char): (r: seq<string>)
    decreases |s|
  {
    if sep !in s then [s]
    else
      var i := FirstIndex(s, sep);
      [s[..i]] + Split(s[i + 1..], sep)
  }

  /** `parts.join(sep)`. */
  function Join(parts: seq<string>, sep: char): string
    decreases |parts|
  {
    if |parts| == 0 then ""
    else if |parts| == 1 then parts[0]
    else parts[0] + [sep] + Join(parts[1..], sep)
  }

  /** There is always at least one piece, and no piece contains the separator. */
  lemma {:induction false} SplitPieces(s: string, sep: char)
    ensures |Split(s, sep)| >= 1
    ensures forall i :: 0 <= i < |Split(s, sep)| ==> sep !in Split(s, sep)[i]
    decreases |s|
  {
    if sep in s {
      SplitPieces(s[FirstIndex(s, sep) + 1..], sep);
      FirstIndexIsFirst(s, sep);
    }
  }

  /** Joining the pieces back with the separator gives the original string. */
  lemma {:induction false} JoinSplit(s: string, sep: char)
    ensures Join(Split(s, sep), sep) == s
    decreases |s|
  {
    if sep in s {
      var i := FirstIndex(s, sep);
      var rest := s[i + 1..];
      var pieces := Split(rest, sep);
      assert Split(s, sep) == [s[..i]] + pieces;
      JoinSplit(rest, sep);
      SplitPieces(rest, sep);
      JoinCons(s[..i], pieces, sep);
      assert Join(Split(s, sep), sep) == s[..i] + [sep] + rest;
      assert s == s[..i] + [sep] + rest;
    }
  }

  lemma JoinCons(x: string, rest: seq<string>, sep: char)
    requires |rest| >= 1
    ensures Join([x] + rest, sep) == x + [sep] + Join(rest, sep)
  {
    assert ([x] + rest)[1..] == rest;
  }

  /** Splitting distributes over a separator: `(a + sep + b).split(sep)` is
      the pieces of `a` followed by the pieces of `b`. */
  lemma {:induction false} SplitAround(a: string, b: string, sep: char)
    ensures Split(a + [sep] + b, sep) == Split(a, sep) + Split(b, sep)
    decreases |a|
  {
    var s := a + [sep] + b;
    assert s[|a|] == sep;
    if sep !in a {
      assert s[..|a|] == a;
      assert FirstIndex(s, sep) == |a| by {
        FirstIndexOfPrefix(s, a, sep);
      }
      assert s[|a| + 1..] == b;
    } else {
      var i := FirstIndex(a, sep);
      FirstIndexIsFirst(a, sep);
      assert s[..i] == a[..i];
      assert FirstIndex(s, sep) == i by {
        FirstIndexOfPrefix(s, a[..i], sep);
      }
      assert s[i + 1..] == a[i + 1..] + [sep] + b;
      SplitAround(a[i + 1..], b, sep);
    }
  }

  /** When `s` starts with a separator-free `p` followed by a separator, the
      first separator is right after `p`. */
  lemma {:induction false} FirstIndexOfPrefix(s: string, p: string, sep: char)
    requires |p| < |s| && s[..|p|] == p && s[|p|] == sep && sep !in p
    ensures FirstIndex(s, sep) == |p|
    decreases |p|
  {
    if |p| > 0 {
      assert s[0] == p[0];
      assert s[1..][..|p| - 1] == p[1..];
      FirstIndexOfPrefix(s[1..], p[1..], sep);
    }
  }

  /** A string without the separator is a single piece. */
  lemma SplitNoSep(s: string, sep: char)
    requires sep !in s
    ensures Split(s, sep) == [s]
  {
  }

  /** Splitting a join of separator-free pieces gives the pieces back. */
  lemma {:induction false} SplitJoin(parts: seq<string>, sep: char)
    requires |parts| >= 1
    requires forall i :: 0 <= i < |parts| ==> sep !in parts[i]
    ensures Split(Join(parts, sep), sep) == parts
    decreases |parts|
  {
    if |parts| > 1 {
      SplitJoin(parts[1..], sep);
      SplitAround(parts[0], Join(parts[1..], sep), sep);
      assert [parts[0]] + parts[1..] == parts;
    }
  }

  // ---------------------------------------------------------------------------
  // String.prototype.trim

  /** The characters ECMAScript's `trim` removes: WhiteSpace (including the
      Unicode space separators) and LineTerminator (U+0009 to U+000D are tab,
      line feed, vertical tab, form feed and carriage return). */
  predicate IsSpace(c: char) {
    c == ' ' || ('\t' <= c <= '\r') || c == '\U{A0}' || c == '\U{1680}'
    || ('\U{2000}' <= c <= '\U{200A}') || c == '\U{2028}' || c == '\U{2029}'
    || c == '\U{202F}' || c == '\U{205F}' || c == '\U{3000}' || c == '\U{FEFF}'
  }

  /** How many spaces `s` starts with. */
  function LeadingSpaces(s: string): (n: nat)
    ensures n <= |s|
    decreases |s|
  {
    if |s| > 0 && IsSpace(s[0]) then 1 + LeadingSpaces(s[1..]) else 0
  }

  /** How many spaces `s` ends with. */
  function TrailingSpaces(s: string): (n: nat)
    ensures n <= |s|
    decreases |s|
  {
    if |s| > 0 && IsSpace(s[|s| - 1]) then 1 + TrailingSpaces(s[..|s| - 1]) else 0
  }

  /** The leading run is all spaces and is followed by a non-space. */
  lemma {:induction false} LeadingSpacesRun(s: string)
    ensures forall k :: 0 <= k < LeadingSpaces(s) ==> IsSpace(s[k])
    ensures LeadingSpaces(s) < |s| ==> !IsSpace(s[LeadingSpaces(s)])
    decreases |s|
  {
    if |s| > 0 && IsSpace(s[0]) {
      LeadingSpacesRun(s[1..]);
      forall k | 1 <= k < LeadingSpaces(s)
        ensures IsSpace(s[k])
      {
        assert s[k] == s[1..][k - 1];
      }
      if LeadingSpaces(s) < |s| {
        assert s[LeadingSpaces(s)] == s[1..][LeadingSpaces(s[1..])];
      }
    }
  }

  /** The trailing run is all spaces and is preceded by a non-space. */
  lemma {:induction false} TrailingSpacesRun(s: string)
    ensures forall k :: |s| - TrailingSpaces(s) <= k < |s| ==> IsSpace(s[k])
    ensures TrailingSpaces(s) < |s| ==> !IsSpace(s[|s| - 1 - TrailingSpaces(s)])
    decreases |s|
  {
    if |s| > 0 && IsSpace(s[|s| - 1]) {
      var init := s[..|s| - 1];
      TrailingSpacesRun(init);
      forall k | |s| - TrailingSpaces(s) <= k < |s| - 1
        ensures IsSpace(s[k])
      {
        assert s[k] == init[k];
      }
      if TrailingSpaces(s) < |s| {
        assert s[|s| - 1 - TrailingSpaces(s)] == init[|init| - 1 - TrailingSpaces(init)];
      }
    }
  }

  /** `s.trimStart()`. */
  function TrimStart(s: string): string {
    s[LeadingSpaces(s)..]
  }

  /** `s.trimEnd()`. */
  function TrimEnd(s: string): string {
    s[..|s| - TrailingSpaces(s)]
  }

  /** `s.trim()`. */
  function Trim(s: string): string {
    TrimEnd(TrimStart(s))
  }

  /** What `trim` returns: the middle of `s` between its leading and its
      trailing spaces; neither end of the result is a space. */
  lemma TrimIsMiddle(s: string)
    ensures LeadingSpaces(s) + |Trim(s)| <= |s|
    ensures Trim(s) == s[LeadingSpaces(s)..LeadingSpaces(s) + |Trim(s)|]
    ensures TrailingSpaces(s[LeadingSpaces(s)..]) == |s| - LeadingSpaces(s) - |Trim(s)|
    ensures Trim(s) == [] || (!IsSpace(Trim(s)[0]) && !IsSpace(Trim(s)[|Trim(s)| - 1]))
  {
    var i := LeadingSpaces(s);
    var t := s[i..];
    var j := |t| - TrailingSpaces(t);
    var r := t[..j];
    assert r == s[i..i + j];
    if r != [] {
      LeadingSpacesRun(s);
      TrailingSpacesRun(t);
      assert r[0] == s[i];
      assert r[j - 1] == t[|t| - 1 - TrailingSpaces(t)];
    }
  }

  /** Everything `trim` cuts away is white space. */
  lemma TrimCutsOnlySpaces(s: string)
    ensures forall k :: 0 <= k < LeadingSpaces(s) ==> IsSpace(s[k])
    ensures forall k :: LeadingSpaces(s) + |Trim(s)| <= k < |s| ==> IsSpace(s[k])
  {
    var i := LeadingSpaces(s);
    var t := s[i..];
    LeadingSpacesRun(s);
    TrailingSpacesRun(t);
    forall k | i + |Trim(s)| <= k < |s|
      ensures IsSpace(s[k])
    {
      assert s[k] == t[k - i];
    }
  }

  /** Trimming twice trims nothing more. */
  lemma TrimIdempotent(s: string)
    ensures Trim(Trim(s)) == Trim(s)
  {
    var r := Trim(s);
    TrimIsMiddle(s);
    if r != [] {
      assert LeadingSpaces(r) == 0;
      assert TrailingSpaces(r) == 0;
    }
  }

  /** A string with no spaces is left as it is. */
  lemma TrimNoSpace(s: string)
    requires forall k :: 0 <= k < |s| ==> !IsSpace(s[k])
    ensures Trim(s) == s
  {
  }

  // ---------------------------------------------------------------------------
  // Number.prototype.toString on integers (radix 10)

  function DigitChar(d: int): (c: char)
    requires 0 <= d < 10
    ensures '0' <= c <= '9'
  {
    ('0' as int + d) as char
  }

  function NatToString(n: nat): (r: string)
    ensures |r| >= 1
    decreases n
  {
    if n < 10 then [DigitChar(n)] else NatToString(n / 10) + [DigitChar(n % 10)]
  }

  /** `n.toString()`. */
  function IntToString(n: int): string {
    if n < 0 then "-" + NatToString(-n) else NatToString(n)
  }

  function DigitValue(c: char): int {
    if '0' <= c <= '9' then c as int - '0' as int else 0
  }

  /** The value of a string of decimal digits. */
  function DecimalValue(s: string): nat
    decreases |s|
  {
    if |s| == 0 then 0
    else DecimalValue(s[..|s| - 1]) * 10 + DigitValue(s[|s| - 1]) as nat
  }

  /** Reading back an integer's decimal string (with its sign). */
  function ParseInt(s: string): int {
    if |s| > 0 && s[0] == '-' then -(DecimalValue(s[1..]) as int) else DecimalValue(s)
  }

  lemma {:induction false} NatToStringDigits(n: nat)
    ensures forall k :: 0 <= k < |NatToString(n)| ==> '0' <= NatToString(n)[k] <= '9'
    ensures DecimalValue(NatToString(n)) == n
    decreases n
  {
    if n >= 10 {
      NatToStringDigits(n / 10);
      var s := NatToString(n);
      assert s[..|s| - 1] == NatToString(n / 10);
    }
  }

  /** `toString` loses nothing: the decimal string reads back as the number. */
  lemma IntToStringRoundTrip(n: int)
    ensures ParseInt(IntToString(n)) == n
  {
    if n < 0 {
      var digits := NatToString(-n);
      NatToStringDigits(-n);
      assert ("-" + digits)[1..] == digits;
    } else {
      var digits := NatToString(n);
      NatToStringDigits(n);
      assert digits[0] != '-';
    }
  }

  /** Distinct numbers print differently. */
  lemma IntToStringInjective(m: int, n: int)
    requires IntToString(m) == IntToString(n)
    ensures m == n
  {
    IntToStringRoundTrip(m);
    IntToStringRoundTrip(n);
  }
}
