/** Values shared by every part of the model: optional values, results, the error kinds the
    Python code raises, parsed JSON values, and the few Python string and value operations the
    code relies on (str(), truthiness, strip(), split(), join(), lower(), slicing). */
module Values {

  datatype Option<+T> = None | Some(value: T)

  /** Success or a raised exception, usable with `:-`. */
  datatype Result<+T> = Ok(value: T) | Err(error: Error) {
    predicate IsFailure() { Err? }
    function PropagateFailure<U>(): Result<U>
      requires Err?
    {
      Err(error)
    }
    function Extract(): T
      requires Ok?
    {
      value
    }
  }

  /** The exceptions the modelled code raises or lets through. */
  datatype Error =
    | HttpError(code: int)            // raise_for_status on a 4xx response
    | ServerError(code: int, bodyPreview: string) // "server error: <code>[ body=<preview>]" on a 5xx
    | ConnectionError                 // a request failure that carries no response
    | InvalidJson                     // a JSON response body that does not decode
    | GatewayError(detail: string)    // any other exception raised by a gateway implementation
    | TypeError(detail: string)       // TypeError / AttributeError on a value of unexpected type
    | ValueError(detail: string)      // ValueError raised by the code, with its message
    | MissingKey(key: string)         // "missing required key: <key>"
    | IngestionFailed(status: Json)   // "ingestion job failed: <status>"
    | IngestionTimedOut               // "ingestion job timed out"
    | MissingJobId(job: Json)         // "cannot determine ingestion job id: <job>"
    | SearchNotReady(cause: Error)    // warm-up gave up; wraps the last search failure
    | NegativeSleep(seconds: real)    // time.sleep was given a negative duration
    | IndexError                      // a list index out of range
    | Unreachable                     // the "unreachable" RuntimeError after an empty retry loop

  /** A decoded JSON (or YAML) value. Objects are unordered maps: no modelled code depends on
      key order. */
  datatype Json =
    | JNull
    | JBool(b: bool)
    | JInt(i: int)
    | JFloat(r: real)
    | JStr(s: string)
    | JArr(items: seq<Json>)
    | JObj(fields: map<string, Json>)

  /** Python truthiness. */
  predicate Truthy(v: Json) {
    match v
    case JNull => false
    case JBool(b) => b
    case JInt(i) => i != 0
    case JFloat(r) => r != 0.0
    case JStr(s) => s != ""
    case JArr(items) => items != []
    case JObj(fields) => fields != map[]
  }

  /** `d.get(key)`: JSON null and an absent key both read as None. */
  function Get(d: map<string, Json>, key: string): Json {
    if key in d then d[key] else JNull
  }

  /** `d.get(key, default)`. */
  function GetOr(d: map<string, Json>, key: string, default: Json): Json {
    if key in d then d[key] else default
  }

  /** `a or b` on JSON values. */
  function Or(a: Json, b: Json): Json {
    if Truthy(a) then a else b
  }

  /** A value Python can hash, and so use as a dictionary key or set element: anything but
      a list or an object. */
  predicate Hashable(v: Json) {
    !v.JArr? && !v.JObj?
  }

  /** Python's notion of equal dictionary keys: 1, 1.0 and True are the same key. */
  function HashKey(v: Json): Json {
    match v
    case JBool(b) => JInt(if b then 1 else 0)
    case JFloat(r) => if r == r.Floor as real then JInt(r.Floor) else v
    case _ => v
  }

  /** The values `done` followed by those still to come, or the failure that ends a loop. */
  function Then<T>(done: seq<T>, rest: Result<seq<T>>): Result<seq<T>> {
    if rest.Err? then rest else Ok(done + rest.value)
  }

  lemma ThenNothing<T>(rest: Result<seq<T>>)
    ensures Then([], rest) == rest
  {
    if rest.Ok? {
      assert [] + rest.value == rest.value;
    }
  }

  // ---------------------------------------------------------------- decimal numbers

  function DigitChar(d: nat): char
    requires d < 10
  {
    "0123456789"[d]
  }

  predicate IsDigit(c: char) { '0' <= c <= '9' }

  function DigitValue(c: char): nat
    requires IsDigit(c)
  {
    (c as int - '0' as int) as nat
  }

  /** The decimal digits of n, without leading zeros. */
  function NatToDecimal(n: nat): (r: string)
    ensures |r| >= 1
    ensures forall k :: 0 <= k < |r| ==> IsDigit(r[k])
  {
    if n < 10 then [DigitChar(n)] else NatToDecimal(n / 10) + [DigitChar(n % 10)]
  }

  /** str(i) for a Python int. */
  function IntToDecimal(i: int): string {
    if i < 0 then "-" + NatToDecimal(-i) else NatToDecimal(i)
  }

  /** The number a string of decimal digits denotes (leading zeros allowed). */
  function DecimalValue(s: string): nat
    requires forall k :: 0 <= k < |s| ==> IsDigit(s[k])
  {
    if s == [] then 0 else 10 * DecimalValue(s[..|s| - 1]) + DigitValue(s[|s| - 1])
  }

  lemma {:induction false} DecimalRoundTrip(n: nat)
    ensures DecimalValue(NatToDecimal(n)) == n
  {
    if n >= 10 {
      var s := NatToDecimal(n);
      assert s[..|s| - 1] == NatToDecimal(n / 10);
      DecimalRoundTrip(n / 10);
    }
  }

  /** `f"{n:05d}"` for n >= 0: the decimal digits, left-padded with zeros to width five. */
  function Pad5(n: nat): (r: string)
    ensures |r| >= 5
    ensures forall k :: 0 <= k < |r| ==> IsDigit(r[k])
  {
    var d := NatToDecimal(n);
    if |d| >= 5 then d else Zeros(5 - |d|) + d
  }

  function Zeros(n: nat): (r: string)
    ensures |r| == n && forall k :: 0 <= k < n ==> r[k] == '0'
  {
    if n == 0 then "" else "0" + Zeros(n - 1)
  }

  lemma {:induction false} DecimalValueLeadingZeros(z: nat, s: string)
    requires forall k :: 0 <= k < |s| ==> IsDigit(s[k])
    ensures forall k :: 0 <= k < |Zeros(z) + s| ==> IsDigit((Zeros(z) + s)[k])
    ensures DecimalValue(Zeros(z) + s) == DecimalValue(s)
  {
    if s == [] {
      assert Zeros(z) + s == Zeros(z);
      ZerosValue(z);
    } else {
      var t := Zeros(z) + s;
      assert t[..|t| - 1] == Zeros(z) + s[..|s| - 1];
      DecimalValueLeadingZeros(z, s[..|s| - 1]);
    }
  }

  lemma {:induction false} ZerosValue(z: nat)
    ensures DecimalValue(Zeros(z)) == 0
  {
    if z > 0 {
      assert Zeros(z)[..z - 1] == Zeros(z - 1);
      ZerosValue(z - 1);
    }
  }

  /** Padding keeps the value: the padded id can be read back as the number it encodes. */
  lemma Pad5RoundTrip(n: nat)
    ensures DecimalValue(Pad5(n)) == n
  {
    var d := NatToDecimal(n);
    DecimalRoundTrip(n);
    if |d| < 5 {
      DecimalValueLeadingZeros(5 - |d|, d);
    }
  }

  // ---------------------------------------------------------------- str()

  /** Python's str(v). Exact for strings, integers, booleans and None; floats, lists and
      dicts render as the non-empty placeholder "?". */
  function PyStr(v: Json): (r: string)
    ensures v.JStr? ==> r == v.s
    ensures !v.JStr? ==> r != ""
  {
    match v
    case JNull => "None"
    case JBool(b) => if b then "True" else "False"
    case JInt(i) => IntToDecimal(i)
    case JFloat(_) => "?"
    case JStr(s) => s
    case JArr(_) => "?"
    case JObj(_) => "?"
  }

  // ---------------------------------------------------------------- strings

  /** Python's whitespace characters (str.isspace). */
  predicate IsSpace(c: char) {
    || c == ' '
    || ('\t' <= c <= '\r')
    || ('\U{1c}' <= c <= '\U{1f}')
    || c == '\U{85}' || c == '\U{a0}' || c == '\U{1680}'
    || ('\U{2000}' <= c <= '\U{200a}')
    || c == '\U{2028}' || c == '\U{2029}' || c == '\U{202f}' || c == '\U{205f}'
    || c == '\U{3000}'
  }

  /** s without its leading whitespace. */
  function LStrip(s: string): (r: string)
    ensures |r| <= |s| && r == s[|s| - |r|..]
    ensures r == [] || !IsSpace(r[0])
  {
    if s != [] && IsSpace(s[0]) then LStrip(s[1..]) else s
  }

  /** s without its trailing whitespace. */
  function RStrip(s: string): (r: string)
    ensures |r| <= |s| && r == s[..|r|]
    ensures r == [] || !IsSpace(r[|r| - 1])
  {
    if s != [] && IsSpace(s[|s| - 1]) then RStrip(s[..|s| - 1]) else s
  }

  /** str.strip(). */
  function Strip(s: string): string {
    RStrip(LStrip(s))
  }

  /** str.startswith(prefix). */
  predicate StartsWith(s: string, prefix: string) {
    |prefix| <= |s| && s[..|prefix|] == prefix
  }

  /** str.rstrip("/"). */
  function RStripSlashes(s: string): (r: string)
    ensures |r| <= |s| && r == s[..|r|]
    ensures r == [] || r[|r| - 1] != '/'
    ensures forall k :: |r| <= k < |s| ==> s[k] == '/'
  {
    if s != [] && s[|s| - 1] == '/' then RStripSlashes(s[..|s| - 1]) else s
  }

  /** The length of the longest prefix of s without whitespace. */
  function WordEnd(s: string): (n: nat)
    ensures n <= |s|
    ensures forall k :: 0 <= k < n ==> !IsSpace(s[k])
    ensures n == |s| || IsSpace(s[n])
  {
    if s == [] || IsSpace(s[0]) then 0 else 1 + WordEnd(s[1..])
  }

  /** A non-empty string without whitespace. */
  predicate IsWord(w: string) {
    w != [] && forall k :: 0 <= k < |w| ==> !IsSpace(w[k])
  }

  /** str.split() with no separator: the maximal runs of non-whitespace, in order. */
  function Split(s: string): (words: seq<string>)
    decreases |s|
  {
    var t := LStrip(s);
    if t == [] then [] else
      var n := WordEnd(t);
      [t[..n]] + Split(t[n..])
  }

  /** Every piece str.split() returns is a word. */
  lemma {:induction false} SplitWords(s: string)
    ensures forall i :: 0 <= i < |Split(s)| ==> IsWord(Split(s)[i])
    decreases |s|
  {
    var t := LStrip(s);
    if t != [] {
      var n := WordEnd(t);
      var w := t[..n];
      forall k | 0 <= k < |w|
        ensures !IsSpace(w[k])
      {
        assert w[k] == t[k];
      }
      var rest := Split(t[n..]);
      SplitWords(t[n..]);
      var r := [w] + rest;
      assert Split(s) == r;
      forall i | 0 <= i < |r|
        ensures IsWord(r[i])
      {
        if i > 0 {
          assert r[i] == rest[i - 1];
        }
      }
    }
  }

  /** sep.join(parts). */
  function Join(sep: string, parts: seq<string>): string {
    if parts == [] then ""
    else if |parts| == 1 then parts[0]
    else Join(sep, parts[..|parts| - 1]) + sep + parts[|parts| - 1]
  }

  /** Joining from the front: sep.join([w] + ws) == w + sep + sep.join(ws). */
  lemma {:induction false} JoinCons(sep: string, w: string, ws: seq<string>)
    requires ws != []
    ensures Join(sep, [w] + ws) == w + sep + Join(sep, ws)
    decreases |ws|
  {
    if |ws| > 1 {
      var init := ws[..|ws| - 1];
      assert ([w] + ws)[..|ws|] == [w] + init;
      JoinCons(sep, w, init);
    }
  }

  /** A word followed by whitespace ends where the whitespace starts. */
  lemma {:induction false} WordEndBeforeSpace(w: string, rest: string)
    requires IsWord(w) && rest != [] && IsSpace(rest[0])
    ensures WordEnd(w + rest) == |w|
    decreases |w|
  {
    if |w| > 1 {
      assert (w + rest)[1..] == w[1..] + rest;
      WordEndBeforeSpace(w[1..], rest);
    } else {
      assert (w + rest)[1..] == rest;
    }
  }

  /** A lone word splits into itself. */
  lemma SplitWord(w: string)
    requires IsWord(w)
    ensures Split(w) == [w]
  {
    assert LStrip(w) == w;
    assert WordEnd(w) == |w|;
    assert w[..|w|] == w && w[|w|..] == [];
  }

  /** A word followed by whitespace splits off first. */
  lemma SplitWordThen(w: string, rest: string)
    requires IsWord(w) && rest != [] && IsSpace(rest[0])
    ensures Split(w + rest) == [w] + Split(rest)
  {
    var s := w + rest;
    assert s[0] == w[0];
    assert LStrip(s) == s;
    WordEndBeforeSpace(w, rest);
    assert s[..|w|] == w && s[|w|..] == rest;
  }

  /** Leading whitespace does not change the split. */
  lemma SplitAfterSpace(s: string)
    ensures Split(" " + s) == Split(s)
  {
    assert (" " + s)[1..] == s;
    assert LStrip(" " + s) == LStrip(s);
  }

  /** Splitting a single space-joined sequence of words gives back the words. */
  lemma {:induction false} SplitJoin(words: seq<string>)
    requires forall i :: 0 <= i < |words| ==> IsWord(words[i])
    ensures Split(Join(" ", words)) == words
    decreases |words|
  {
    if |words| == 1 {
      SplitWord(words[0]);
    } else if |words| > 1 {
      var w, ws := words[0], words[1..];
      assert words == [w] + ws;
      JoinCons(" ", w, ws);
      assert Join(" ", words) == w + (" " + Join(" ", ws));
      SplitWordThen(w, " " + Join(" ", ws));
      SplitAfterSpace(Join(" ", ws));
      SplitJoin(ws);
    }
  }

  /** str.lower() on ASCII letters; other characters are left as they are. */
  function Lower(s: string): (r: string)
    ensures |r| == |s|
  {
    if s == [] then [] else [LowerChar(s[0])] + Lower(s[1..])
  }

  /** Lower-casing works character by character. */
  lemma {:induction false} LowerChars(s: string)
    ensures forall k :: 0 <= k < |s| ==> Lower(s)[k] == LowerChar(s[k])
  {
    if s != [] {
      LowerChars(s[1..]);
      assert Lower(s) == [LowerChar(s[0])] + Lower(s[1..]);
    }
  }

  function LowerChar(c: char): char {
    if 'A' <= c <= 'Z' then (c as int + 32) as char else c
  }

  // ---------------------------------------------------------------- containers

  /** What `for item in value` visits: the elements of a list, the one-character strings of a
      string. Iterating a dict visits its keys in insertion order, which a map does not
      keep, so here it fails like iterating a value that is not iterable. */
  function Iterate(v: Json): Result<seq<Json>> {
    match v
    case JArr(items) => Ok(items)
    case JStr(s) => Ok(seq(|s|, i requires 0 <= i < |s| => JStr([s[i]])))
    case JObj(_) => Err(TypeError("iteration over a dict"))
    case _ => Err(TypeError("not iterable"))
  }

  /** `t in s` on strings. */
  predicate Mentions(s: string, t: string) {
    exists i, j :: 0 <= i <= j <= |s| && s[i..j] == t
  }

  /** `key in v`: a key of an object, an element of a list (only a string equals a string),
      a substring of a string; any other value is not a container and raises. */
  function Contains(v: Json, key: string): Result<bool> {
    match v
    case JObj(fields) => Ok(key in fields)
    case JArr(items) => Ok(JStr(key) in items)
    case JStr(s) => Ok(Mentions(s, key))
    case _ => Err(TypeError("argument is not iterable"))
  }

  /** `v[key]` for a string key: only an object can be indexed by one. */
  function Subscript(v: Json, key: string): Result<Json> {
    if v.JObj? && key in v.fields then Ok(v.fields[key])
    else if v.JObj? then Err(MissingKey(key))
    else Err(TypeError("not subscriptable by a string"))
  }

  /** An optional mapping read with `d.get(key)`: None when absent or null, the map when it is
      an object. Any other value is refused, following the field's declared type
      `Optional[Dict[str, Any]]`; Python itself would store it as it is. */
  function OptionalObject(d: map<string, Json>, key: string): (r: Result<Option<map<string, Json>>>)
    ensures r == Ok(None) <==> Get(d, key) == JNull
    ensures r.Ok? && r.value.Some? <==> key in d && d[key].JObj?
    ensures r.Ok? && r.value.Some? ==> d[key] == JObj(r.value.value)
  {
    match Get(d, key)
    case JNull => Ok(None)
    case JObj(m) => Ok(Some(m))
    case _ => Err(TypeError(key + " is not a mapping"))
  }

  // ---------------------------------------------------------------- slices

  /** Where a Python slice bound i lands in a sequence of length n. */
  function SliceBound(i: int, n: nat): (b: nat)
    ensures b <= n
    ensures 0 <= i <= n ==> b == i
  {
    if i < 0 then (if i + n < 0 then 0 else i + n) else if i > n then n else i
  }

  /** s[i:j] with Python's clamping and negative-index rules. */
  function PySlice<T>(s: seq<T>, i: int, j: int): (r: seq<T>)
    ensures |r| <= |s|
    ensures 0 <= i <= j <= |s| ==> r == s[i..j]
  {
    var a := SliceBound(i, |s|);
    var b := SliceBound(j, |s|);
    if a <= b then s[a..b] else []
  }

  /** Python's int() of a float: truncation toward zero. */
  function Trunc(r: real): int {
    if r >= 0.0 then r.Floor else -((-r).Floor)
  }
}
