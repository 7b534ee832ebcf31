/** Shared vocabulary: optional values, identifiers and the handful of string
    operations the JavaScript code relies on (startsWith, includes, toLowerCase,
    trim, split on a space, decimal rendering of ids). */
module Common {

  datatype Option<T> = None | Some(value: T)

  /** The JSON response of an HTTP handler: a success status with its payload,
      or an error status with the `message` the handler sends. */
  datatype Answer<T> = Success(status: nat, value: T) | Failure(status: nat, message: string)

  /** Server-side document identifiers (Mongo ObjectIds): distinct values, rendered as text by IdText. */
  type Id = nat

  /** The result of a one-way function (bcrypt, sha256): equal digests mean equal inputs. */
  datatype Digest = Digest(input: string)

  function HashOf(s: string): Digest
  {
    Digest(s)
  }

  /** Text of a decimal digit. */
  function Digit(d: nat): (c: char)
    requires d < 10
    ensures '0' <= c <= '9'
  {
    "0123456789"[d]
  }

  /** Decimal rendering of an id, as `${id}` or `.toString()` produces it. */
  function IdText(n: nat): (s: string)
    ensures |s| >= 1
    ensures forall i :: 0 <= i < |s| ==> '0' <= s[i] <= '9'
    decreases n
  {
    if n < 10 then [Digit(n)] else IdText(n / 10) + [Digit(n % 10)]
  }

  /** Reading the rendered digits back gives the id: rendering is injective. */
  function DigitsValue(s: string): nat
    requires forall i :: 0 <= i < |s| ==> '0' <= s[i] <= '9'
  {
    if s == [] then 0 else DigitsValue(s[..|s| - 1]) * 10 + ((s[|s| - 1] as int - '0' as int) as nat)
  }

  lemma {:induction false} IdTextRoundTrip(n: nat)
    ensures DigitsValue(IdText(n)) == n
    decreases n
  {
    var s := IdText(n);
    if n < 10 {
      assert s[..0] == [];
    } else {
      IdTextRoundTrip(n / 10);
      assert s[..|s| - 1] == IdText(n / 10);
      assert s[|s| - 1] == Digit(n % 10);
    }
  }

  lemma IdTextInjective(a: nat, b: nat)
    requires IdText(a) == IdText(b)
    ensures a == b
  {
    IdTextRoundTrip(a);
    IdTextRoundTrip(b);
  }

  /** `s.startsWith(p)` */
  predicate StartsWith(s: string, p: string)
  {
    |p| <= |s| && s[..|p|] == p
  }

  /** `s.includes(sub)` */
  predicate Includes(s: string, sub: string)
    decreases |s|
  {
    StartsWith(s, sub) || (s != [] && Includes(s[1..], sub))
  }

  /** The capitals `toLowerCase()` maps here: 'A'..'Z' and the Latin-1 capitals
      U+00C0..U+00DE other than the multiplication sign U+00D7. */
  predicate IsUpper(c: char)
  {
    'A' <= c <= 'Z' || (0xC0 as char <= c <= 0xDE as char && c != 0xD7 as char)
  }

  /** `toLowerCase()` on one character: each capital maps to the small letter 32 code
      points above it; every other character is kept. */
  function LowerChar(c: char): (r: char)
    ensures !IsUpper(r)
    ensures !IsUpper(c) ==> r == c
    ensures IsSpace(r) <==> IsSpace(c)
  {
    if IsUpper(c) then (c as int + 32) as char else c
  }

  function Lower(s: string): (r: string)
    ensures |r| == |s|
    ensures forall i :: 0 <= i < |s| ==> r[i] == LowerChar(s[i])
  {
    if s == [] then [] else [LowerChar(s[0])] + Lower(s[1..])
  }

  /** The characters `trim()` removes (ECMAScript's WhiteSpace and LineTerminator): tab,
      line feed, vertical tab, form feed, carriage return, space, U+00A0, U+1680,
      U+2000..U+200A, U+2028, U+2029, U+202F, U+205F, U+3000 and U+FEFF. */
  predicate IsSpace(c: char)
  {
    (9 as char <= c <= 13 as char) || c == ' ' || c == 0xA0 as char || c == 0x1680 as char
    || (0x2000 as char <= c <= 0x200A as char) || c == 0x2028 as char || c == 0x2029 as char
    || c == 0x202F as char || c == 0x205F as char || c == 0x3000 as char || c == 0xFEFF as char
  }

  function TrimStart(s: string): (r: string)
    ensures |r| <= |s| && r == s[|s| - |r|..]
    ensures r != [] ==> !IsSpace(r[0])
    ensures forall i :: 0 <= i < |s| - |r| ==> IsSpace(s[i])
  {
    if s != [] && IsSpace(s[0]) then TrimStart(s[1..]) else s
  }

  function TrimEnd(s: string): (r: string)
    ensures |r| <= |s| && r == s[..|r|]
    ensures r != [] ==> !IsSpace(r[|r| - 1])
    ensures forall i :: |r| <= i < |s| ==> IsSpace(s[i])
  {
    if s != [] && IsSpace(s[|s| - 1]) then TrimEnd(s[..|s| - 1]) else s
  }

  /** `s.trim()` */
  function Trim(s: string): (r: string)
    ensures |r| <= |TrimStart(s)| <= |s| && r == s[|s| - |TrimStart(s)|..|s| - |TrimStart(s)| + |r|]
    ensures r != [] ==> !IsSpace(r[0]) && !IsSpace(r[|r| - 1])
  {
    var t := TrimStart(s);
    var r := TrimEnd(t);
    assert r != [] ==> r[0] == t[0];
    r
  }

  /** Text that starts and ends with a non-space character is its own trim. */
  lemma TrimKeeps(s: string)
    requires s != [] && !IsSpace(s[0]) && !IsSpace(s[|s| - 1])
    ensures Trim(s) == s
  {
    assert TrimStart(s) == s;
    assert TrimEnd(s) == s;
  }

  /** The value an email path declared `lowercase` and `trim` stores, and the value an
      equality filter on that path is cast to before the query runs. */
  function NormalEmail(e: string): (r: string)
    ensures forall i :: 0 <= i < |r| ==> !IsUpper(r[i])
    ensures r != [] ==> !IsSpace(r[0]) && !IsSpace(r[|r| - 1])
  {
    Trim(Lower(e))
  }

  /** Normalising an address twice changes nothing: a stored address is found by itself. */
  lemma NormalEmailIdempotent(e: string)
    ensures NormalEmail(NormalEmail(e)) == NormalEmail(e)
  {
    var r := NormalEmail(e);
    assert Lower(r) == r;
    assert TrimStart(r) == r;
    assert TrimEnd(r) == r;
  }

  /** What a string path declared `trim` and `required` stores: the setter trims on
      assignment, then the validator refuses the empty string; None when it is refused. */
  function TrimmedRequired(s: string): (r: Option<string>)
    ensures r.None? <==> forall i :: 0 <= i < |s| ==> IsSpace(s[i])
    ensures r.Some? ==> r.value == Trim(s) && r.value != []
  {
    TrimEmptyIffBlank(s);
    if Trim(s) == [] then None else Some(Trim(s))
  }

  /** `s.trim()` is empty exactly when `s` holds only white space. */
  lemma TrimEmptyIffBlank(s: string)
    ensures Trim(s) == [] <==> forall i :: 0 <= i < |s| ==> IsSpace(s[i])
  {
    var t := TrimStart(s);
    if Trim(s) == [] {
      assert t == [];
    } else {
      var r := Trim(s);
      assert r == t[..|r|];
      assert t[0] == s[|s| - |t|];
      assert !IsSpace(s[|s| - |t|]);
    }
  }

  /** `s.split(' ')`: the pieces between single spaces, empty pieces included. */
  function SplitSpace(s: string): (parts: seq<string>)
    ensures |parts| >= 1
    ensures forall k :: 0 <= k < |parts| ==> ' ' !in parts[k]
    decreases |s|
  {
    if ' ' !in s then [s]
    else
      var i := FirstSpace(s);
      [s[..i]] + SplitSpace(s[i + 1..])
  }

  function FirstSpace(s: string): (i: nat)
    requires ' ' in s
    ensures i < |s| && s[i] == ' ' && ' ' !in s[..i]
  {
    if s[0] == ' ' then 0 else 1 + FirstSpace(s[1..])
  }

  /** Joining the pieces with single spaces gives the text back. */
  function JoinSpace(parts: seq<string>): string
    requires |parts| >= 1
  {
    if |parts| == 1 then parts[0] else parts[0] + " " + JoinSpace(parts[1..])
  }

  lemma {:induction false} SplitJoin(s: string)
    ensures JoinSpace(SplitSpace(s)) == s
    decreases |s|
  {
    if ' ' in s {
      var i := FirstSpace(s);
      SplitJoin(s[i + 1..]);
      assert SplitSpace(s)[1..] == SplitSpace(s[i + 1..]);
      assert s == s[..i] + " " + s[i + 1..];
    }
  }

  /** Number of elements of a sequence that satisfy a test. */
  function CountWhere<T>(s: seq<T>, p: T -> bool): (n: nat)
    ensures n <= |s|
  {
    if s == [] then 0 else (if p(s[0]) then 1 else 0) + CountWhere(s[1..], p)
  }

  /** `Math.ceil(a / b)` for a positive divisor and a non-negative dividend. */
  function CeilDiv(a: nat, b: nat): (q: nat)
    requires b > 0
    ensures (q - 1) * b < a <= q * b || (a == 0 && q == 0)
  {
    if a == 0 then 0 else (a - 1) / b + 1
  }

  /** `Math.ceil(total / limit)` as JSON writes it: a division by zero is not finite and is written `null`. */
  function PageCount(total: nat, limit: int): (pages: Option<int>)
    ensures limit == 0 <==> pages.None?
    ensures limit > 0 ==> pages.value >= 0 && total <= pages.value * limit && (total == 0 || (pages.value - 1) * limit < total)
    ensures limit < 0 ==> pages.value <= 0
  {
    if limit == 0 then None
    else if limit > 0 then Some(CeilDiv(total, limit))
    else Some(-(total / -limit))
  }

  /** `.skip(skip).limit(limit)` of MongoDB: a zero limit is no limit, a negative one counts as its absolute value. */
  function Slice<T>(s: seq<T>, skip: nat, limit: int): (r: seq<T>)
    ensures skip <= |s| ==> skip + |r| <= |s| && r == s[skip..skip + |r|]
    ensures skip >= |s| ==> r == []
    ensures limit != 0 ==> |r| <= if limit < 0 then -limit else limit
    ensures skip <= |s| && (limit == 0 || skip + (if limit < 0 then -limit else limit) >= |s|) ==> |r| == |s| - skip
    ensures limit != 0 && skip + (if limit < 0 then -limit else limit) <= |s| ==> |r| == (if limit < 0 then -limit else limit)
  {
    var n := if limit < 0 then -limit else limit;
    if skip >= |s| then []
    else if n == 0 || skip + n >= |s| then s[skip..]
    else s[skip..skip + n]
  }

  /** `parseInt(x, 10) || d`: an absent, unparsable or zero value takes the default. */
  function OrDefault(x: Option<int>, d: int): (r: int)
    ensures r != 0 || d == 0
    ensures x.Some? && x.value != 0 ==> r == x.value
  {
    if x.Some? && x.value != 0 then x.value else d
  }

  /** MongoDB's reading of a limit: 0 means none, a negative limit counts as its absolute value. */
  function LimitOf(limit: int): nat
  {
    if limit < 0 then -limit else limit
  }

  /** `(page - 1) * limit`: how many items the pages before `page` hold. */
  function PageStart(page: int, limit: int): int
  {
    (page - 1) * limit
  }

  /** `array.reverse()` */
  function Reverse<T>(s: seq<T>): (r: seq<T>)
    ensures |r| == |s|
    ensures forall i :: 0 <= i < |s| ==> r[i] == s[|s| - 1 - i]
  {
    if s == [] then [] else Reverse(s[1..]) + [s[0]]
  }

  /** Position of the first element passing the test, or -1 (`findOne` over documents in
      insertion order). */
  function FirstMatch<T>(s: seq<T>, p: T -> bool): (k: int)
    ensures -1 <= k < |s|
    ensures k >= 0 ==> p(s[k])
    ensures k >= 0 ==> forall j :: 0 <= j < k ==> !p(s[j])
    ensures k == -1 <==> forall j :: 0 <= j < |s| ==> !p(s[j])
  {
    if s == [] then -1
    else if p(s[0]) then 0
    else
      var k := FirstMatch(s[1..], p);
      assert forall j :: 0 < j < |s| ==> s[j] == s[1..][j - 1];
      if k == -1 then -1 else k + 1
  }
}
