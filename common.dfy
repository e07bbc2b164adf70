/** Values and string helpers shared by the model: optional values, the error
    side of a thrown JavaScript `Error`, JavaScript truthiness of an optional
    string, and the few `String.prototype` operations the code relies on. */
module Common {

  datatype Option<T> = None | Some(value: T)

  /** A computation that either returns a value or throws an `Error(message)`. */
  datatype Result<T> = Ok(value: T) | Err(message: string)

  /** An environment (`process.env`): a key that is absent is `undefined`. */
  type Env = map<string, string>

  function EnvGet(env: Env, key: string): (r: Option<string>)
    ensures r.Some? <==> key in env
    ensures r.Some? ==> r.value == env[key]
  {
    if key in env then Some(env[key]) else None
  }

  /** JavaScript truthiness of a value that is a string or `undefined`. */
  predicate Truthy(s: Option<string>) {
    s.Some? && s.value != ""
  }

  /** `a || b` for two string-or-undefined operands. */
  function Or(a: Option<string>, b: Option<string>): (r: Option<string>)
    ensures Truthy(a) ==> r == a
    ensures !Truthy(a) ==> r == b
  {
    if a.Some? && a.value != "" then a else b
  }

  /** `a || "default"`: the value when it is a non-empty string, else the default. */
  function OrDefault(a: Option<string>, default: string): (r: string)
    ensures Truthy(a) ==> r == a.value
    ensures !Truthy(a) ==> r == default
  {
    match a
    case Some(v) => if v != "" then v else default
    case None => default
  }

  /** How a string-or-undefined is rendered inside a template literal. */
  function TemplateText(a: Option<string>): string {
    match a
    case Some(v) => v
    case None => "undefined"
  }

  predicate StartsWith(s: string, prefix: string) {
    |prefix| <= |s| && s[..|prefix|] == prefix
  }

  predicate EndsWith(s: string, suffix: string) {
    |suffix| <= |s| && s[|s| - |suffix|..] == suffix
  }

  predicate IsUpperAscii(c: char) { 'A' <= c <= 'Z' }

  function LowerChar(c: char): char {
    if IsUpperAscii(c) then (c as int + 32) as char else c
  }

  function UpperChar(c: char): char {
    if 'a' <= c <= 'z' then (c as int - 32) as char else c
  }

  /** `toLowerCase()`, restricted to the ASCII letters. */
  function ToLower(s: string): (r: string)
    ensures |r| == |s|
    ensures forall i :: 0 <= i < |s| ==> r[i] == LowerChar(s[i])
  {
    if s == [] then [] else [LowerChar(s[0])] + ToLower(s[1..])
  }

  /** `toLowerCase()` of a given text, character by character. */
  lemma LowerOf(s: string, t: string)
    requires |s| == |t|
    requires forall i :: 0 <= i < |s| ==> LowerChar(s[i]) == t[i]
    ensures ToLower(s) == t
  {
  }

  /** The characters `trim()` removes, restricted to the ASCII ones. */
  predicate IsSpace(c: char) {
    c == ' ' || c == '\t' || c == '\n' || c == '\r' || c == '\U{B}' || c == '\U{C}'
  }

  function TrimStart(s: string): (r: string)
    ensures |r| <= |s| && r == s[|s| - |r|..]
    ensures forall i :: 0 <= i < |s| - |r| ==> IsSpace(s[i])
    ensures r == [] || !IsSpace(r[0])
  {
    if s != [] && IsSpace(s[0]) then TrimStart(s[1..]) else s
  }

  function TrimEnd(s: string): (r: string)
    ensures |r| <= |s| && r == s[..|r|]
    ensures forall i :: |r| <= i < |s| ==> IsSpace(s[i])
    ensures r == [] || !IsSpace(r[|r| - 1])
  {
    if s != [] && IsSpace(s[|s| - 1]) then TrimEnd(s[..|s| - 1]) else s
  }

  /** `trim()`: the text between its leading and its trailing white space. */
  function Trim(s: string): (r: string)
    ensures var p := |s| - |TrimStart(s)|;
      && p + |r| <= |s| && r == s[p..p + |r|]
      && (forall i :: 0 <= i < p ==> IsSpace(s[i]))
      && (forall i :: p + |r| <= i < |s| ==> IsSpace(s[i]))
    ensures r == [] || (!IsSpace(r[0]) && !IsSpace(r[|r| - 1]))
  {
    TrimEnd(TrimStart(s))
  }

  /** A leading white-space character is dropped by `TrimStart`. */
  lemma TrimStartSpace(c: char, t: string)
    requires IsSpace(c)
    ensures TrimStart([c] + t) == TrimStart(t)
  {
    assert ([c] + t)[1..] == t;
  }

  /** A trailing white-space character is dropped by `TrimEnd`. */
  lemma TrimEndSpace(t: string, c: char)
    requires IsSpace(c)
    ensures TrimEnd(t + [c]) == TrimEnd(t)
  {
    assert (t + [c])[..|t|] == t;
  }

  /** One space on each side of a text that starts and ends with other
      characters is what `trim()` removes. */
  lemma TrimPadded(t: string)
    requires t != [] && !IsSpace(t[0]) && !IsSpace(t[|t| - 1])
    ensures Trim([' '] + t + [' ']) == t
  {
    assert [' '] + t + [' '] == [' '] + (t + [' ']);
    TrimStartSpace(' ', t + [' ']);
    TrimEndSpace(t, ' ');
  }

  /** `sep` occurs in `s` starting at index `i`. */
  predicate OccursAt(s: string, sep: string, i: int) {
    0 <= i && i + |sep| <= |s| && s[i..i + |sep|] == sep
  }

  /** `sep` occurs nowhere in `s`. */
  ghost predicate Free(s: string, sep: string) {
    forall i :: !OccursAt(s, sep, i)
  }

  /** `s.split(sep)` for a non-empty string separator: the pieces between
      the non-overlapping occurrences of `sep`, found left to right. */
  function Split(s: string, sep: string): (r: seq<string>)
    requires sep != []
    ensures |r| >= 1
  {
    SplitFrom(s, sep, [])
  }

  function SplitFrom(s: string, sep: string, current: string): (r: seq<string>)
    requires sep != []
    ensures |r| >= 1
    decreases |s|
  {
    if s == [] then [current]
    else if StartsWith(s, sep) then [current] + SplitFrom(s[|sep|..], sep, [])
    else SplitFrom(s[1..], sep, current + [s[0]])
  }

  /** A string with no occurrence of the separator is not split. */
  lemma {:induction false} SplitFromFree(s: string, sep: string, current: string)
    requires sep != [] && Free(s, sep)
    ensures SplitFrom(s, sep, current) == [current + s]
    decreases |s|
  {
    if s == [] {
      assert current + s == current;
    } else {
      assert !OccursAt(s, sep, 0);
      assert !StartsWith(s, sep);
      forall i ensures !OccursAt(s[1..], sep, i) {
        assert !OccursAt(s, sep, i + 1);
        if 0 <= i && i + |sep| <= |s[1..]| {
          assert s[1..][i..i + |sep|] == s[i + 1..i + 1 + |sep|];
        }
      }
      SplitFromFree(s[1..], sep, current + [s[0]]);
      assert (current + [s[0]]) + s[1..] == current + s;
    }
  }

  /** Scanning the first piece `a` of `a + sep + rest` accumulates `a`,
      provided no occurrence of `sep` starts inside `a`. */
  lemma {:induction false} SplitFromPrefix(a: string, sep: string, rest: string, current: string)
    requires sep != []
    requires forall i :: i < |a| ==> !OccursAt(a + sep, sep, i)
    ensures SplitFrom(a + sep + rest, sep, current) == [current + a] + SplitFrom(rest, sep, [])
    decreases |a|
  {
    var s := a + sep + rest;
    if a == [] {
      assert s == sep + rest;
      assert s[..|sep|] == sep;
      assert s[|sep|..] == rest;
      assert current + a == current;
    } else {
      assert !OccursAt(a + sep, sep, 0);
      assert (a + sep)[0..|sep|] == s[..|sep|];
      assert !StartsWith(s, sep);
      assert s[1..] == a[1..] + sep + rest;
      var w := a + sep;
      assert a[1..] + sep == w[1..];
      forall i | i < |a[1..]| ensures !OccursAt(w[1..], sep, i) {
        assert !OccursAt(w, sep, i + 1);
        if 0 <= i {
          assert w[1..][i..i + |sep|] == w[i + 1..i + 1 + |sep|];
        }
      }
      SplitFromPrefix(a[1..], sep, rest, current + [s[0]]);
      assert (current + [s[0]]) + a[1..] == current + a;
    }
  }

  /** Splitting `a + sep + b` gives exactly `[a, b]` when no occurrence of
      the separator starts inside `a` and none occurs in `b`. */
  lemma SplitTwoPieces(a: string, sep: string, b: string)
    requires sep != []
    requires forall i :: i < |a| ==> !OccursAt(a + sep, sep, i)
    requires Free(b, sep)
    ensures Split(a + sep + b, sep) == [a, b]
  {
    SplitFromPrefix(a, sep, b, []);
    SplitFromFree(b, sep, []);
    assert [] + a == a;
    assert [] + b == b;
  }

  /** The piece at `index` of a split, or `undefined` past its end. */
  function PieceAt(pieces: seq<string>, index: nat): (r: Option<string>)
    ensures r.Some? <==> index < |pieces|
  {
    if index < |pieces| then Some(pieces[index]) else None
  }

  function DigitChar(d: nat): char
    requires d < 10
  {
    "0123456789"[d]
  }

  /** Decimal rendering of a non-negative integer (`String(n)`). */
  function NatToString(n: nat): (r: string)
    ensures |r| >= 1
    ensures forall i :: 0 <= i < |r| ==> '0' <= r[i] <= '9'
    decreases n
  {
    if n < 10 then [DigitChar(n)] else NatToString(n / 10) + [DigitChar(n % 10)]
  }

  /** Path joining, written as plain "/"-concatenation. */
  function JoinPath(base: string, segment: string): (r: string)
    ensures StartsWith(r, base + "/")
    ensures r[|base| + 1..] == segment
  {
    base + "/" + segment
  }
}
