/** Values shared by the client and server modules: optional values, results,
    the JavaScript error shape the catch blocks inspect, JSON values, and the
    string helpers (case mapping, number formatting, filtering) the source
    takes from the JavaScript runtime. */
module Common {

  datatype Option<+T> = None | Some(value: T)

  datatype Result<+T, +E> = Ok(value: T) | Err(error: E)

  /** A ledger address in its textual form ("0x" followed by hex digits). */
  type Address = string

  /** `ethers.constants.AddressZero`. */
  const ZeroAddress: Address := "0x0000000000000000000000000000000000000000"

  /** The `code` field of a thrown error: absent, a string code such as
      'INSUFFICIENT_FUNDS', or a numeric wallet code such as 4001. */
  datatype ErrorCode = NoCode | TextCode(text: string) | NumCode(num: int)

  /** The codes the catch blocks single out: ethers' insufficient-funds and
      user-rejection codes, and the wallet's numeric rejection code. */
  const InsufficientFunds := TextCode("INSUFFICIENT_FUNDS")
  const ActionRejected := TextCode("ACTION_REJECTED")
  const UserRejected := NumCode(4001)

  /** A thrown error as a catch block reads it. An absent or empty `reason`
      or `message` is "", which is what JavaScript's `||` treats alike. */
  datatype Failure = Failure(code: ErrorCode, reason: string, message: string)

  /** `new Error(message)`: no code and no reason. */
  function Thrown(message: string): (f: Failure)
    ensures f.code == NoCode && f.reason == "" && f.message == message
  {
    Failure(NoCode, "", message)
  }

  /** The rethrow both deployment catch blocks share: insufficient funds and
      a rejection (by either code) get the caller's fixed messages; any
      other error keeps its reason, else its message, else "Deployment failed". */
  function CaughtMessage(f: Failure, fundsMessage: string, rejectedMessage: string): (message: string)
    requires fundsMessage != "" && rejectedMessage != ""
    ensures message != ""
    ensures f.code == InsufficientFunds ==> message == fundsMessage
    ensures f.code == ActionRejected || f.code == UserRejected ==> message == rejectedMessage
    ensures f.code != InsufficientFunds && f.code != ActionRejected && f.code != UserRejected ==>
      message == Or(Or(f.reason, f.message), "Deployment failed")
  {
    if f.code == InsufficientFunds then fundsMessage
    else if f.code == ActionRejected || f.code == UserRejected then rejectedMessage
    else Or(Or(f.reason, f.message), "Deployment failed")
  }

  /** JavaScript `a || b` on two strings. */
  function Or(a: string, b: string): (r: string)
    ensures a != "" ==> r == a
    ensures a == "" ==> r == b
  {
    if a != "" then a else b
  }

  /** A JSON value as carried by HTTP bodies. Numbers are integers here. */
  datatype Json =
    | JNull
    | JBool(b: bool)
    | JNum(n: int)
    | JStr(s: string)
    | JArr(items: seq<Json>)
    | JObj(fields: map<string, Json>)

  /** JavaScript truthiness of a JSON value (arrays and objects are always truthy). */
  predicate Truthy(j: Json)
  {
    match j
    case JNull => false
    case JBool(b) => b
    case JNum(n) => n != 0
    case JStr(s) => s != ""
    case JArr(_) => true
    case JObj(_) => true
  }

  /** Truthiness of an optional field: an absent field is `undefined`, which is falsy. */
  predicate FieldTruthy(m: map<string, Json>, key: string)
  {
    key in m && Truthy(m[key])
  }

  // ---------------------------------------------------------------------
  // Case mapping (String.prototype.toLowerCase / toUpperCase on ASCII)

  function LowerChar(c: char): char
  {
    if 'A' <= c <= 'Z' then (c as int + 32) as char else c
  }

  function UpperChar(c: char): char
  {
    if 'a' <= c <= 'z' then (c as int - 32) as char else c
  }

  function Lower(s: string): (r: string)
    ensures |r| == |s|
    ensures forall i :: 0 <= i < |s| ==> r[i] == LowerChar(s[i])
  {
    seq(|s|, i requires 0 <= i < |s| => LowerChar(s[i]))
  }

  function Upper(s: string): (r: string)
    ensures |r| == |s|
    ensures forall i :: 0 <= i < |s| ==> r[i] == UpperChar(s[i])
  {
    seq(|s|, i requires 0 <= i < |s| => UpperChar(s[i]))
  }

  /** A string with no lower-case ASCII letter, i.e. one toUpperCase leaves alone. */
  predicate IsUpperCase(s: string)
  {
    forall i :: 0 <= i < |s| ==> !('a' <= s[i] <= 'z')
  }

  lemma UpperIsUpperCase(s: string)
    ensures IsUpperCase(Upper(s))
    ensures Upper(Upper(s)) == Upper(s)
  {
  }

  lemma UpperKeepsUpperCase(s: string)
    requires IsUpperCase(s)
    ensures Upper(s) == s
  {
  }

  lemma LowerIdempotent(s: string)
    ensures Lower(Lower(s)) == Lower(s)
  {
  }

  lemma LowerKeepsDash(s: string)
    ensures '-' in Lower(s) <==> '-' in s
  {
    if '-' in s {
      var i :| 0 <= i < |s| && s[i] == '-';
      assert Lower(s)[i] == '-';
    }
    if '-' in Lower(s) {
      var i :| 0 <= i < |Lower(s)| && Lower(s)[i] == '-';
      assert s[i] == '-';
    }
  }

  // ---------------------------------------------------------------------
  // Number formatting (template literals `${n}` on integers)

  function DigitChar(d: nat): char
    requires d < 10
  {
    "0123456789"[d]
  }

  function NatToString(n: nat): (r: string)
    ensures |r| >= 1
    ensures forall i :: 0 <= i < |r| ==> '0' <= r[i] <= '9'
  {
    if n < 10 then [DigitChar(n)] else NatToString(n / 10) + [DigitChar(n % 10)]
  }

  function IntToString(n: int): (r: string)
    ensures |r| >= 1
    ensures n >= 0 ==> '-' !in r
  {
    if n < 0 then "-" + NatToString(-n) else NatToString(n)
  }

  /** The number a string of decimal digits denotes (most significant first). */
  function DecimalValue(s: string): nat
    requires AllDigits(s)
  {
    if |s| == 0 then 0 else DecimalValue(s[..|s| - 1]) * 10 + (s[|s| - 1] as int - '0' as int)
  }

  /** The number `String(n)` denotes, with an optional leading minus sign. */
  function SignedDecimalValue(s: string): int
    requires |s| >= 1
    requires if s[0] == '-' then AllDigits(s[1..]) else AllDigits(s)
  {
    if s[0] == '-' then -(DecimalValue(s[1..]) as int) else DecimalValue(s)
  }

  predicate AllDigits(s: string)
  {
    forall i :: 0 <= i < |s| ==> '0' <= s[i] <= '9'
  }

  lemma DigitCharValue(d: nat)
    requires d < 10
    ensures DigitChar(d) as int - '0' as int == d
  {
    var digits := "0123456789";
    assert digits[0] == '0' && digits[1] == '1' && digits[2] == '2' && digits[3] == '3' && digits[4] == '4';
    assert digits[5] == '5' && digits[6] == '6' && digits[7] == '7' && digits[8] == '8' && digits[9] == '9';
  }

  /** Reading the digits back gives the number: the decimal rendering loses nothing. */
  lemma {:induction false} NatToStringRoundTrip(n: nat)
    ensures DecimalValue(NatToString(n)) == n
  {
    var r := NatToString(n);
    if n < 10 {
      DigitCharValue(n);
      assert r[..0] == [];
    } else {
      NatToStringRoundTrip(n / 10);
      DigitCharValue(n % 10);
      assert r[..|r| - 1] == NatToString(n / 10);
    }
  }

  lemma NegativeRoundTrip(n: int)
    requires n < 0
    ensures var r := IntToString(n); r[0] == '-' && AllDigits(r[1..]) && SignedDecimalValue(r) == n
  {
    var r := IntToString(n);
    var digits := NatToString(-n);
    assert r == "-" + digits;
    assert r[1..] == digits;
    assert AllDigits(digits);
    NatToStringRoundTrip(-n);
    assert SignedDecimalValue(r) == -(DecimalValue(digits) as int);
  }

  /** The same for signed numbers, minus sign included. */
  lemma IntToStringRoundTrip(n: int)
    ensures var r := IntToString(n);
      (if r[0] == '-' then AllDigits(r[1..]) else AllDigits(r)) && SignedDecimalValue(r) == n
  {
    if n < 0 {
      NegativeRoundTrip(n);
    } else {
      NatToStringRoundTrip(n);
    }
  }

  // ---------------------------------------------------------------------
  // Sequences

  predicate StartsWith(s: string, prefix: string)
  {
    |prefix| <= |s| && s[..|prefix|] == prefix
  }

  /** `Array.prototype.filter(x => x !== v)`. */
  function RemoveAll<T(==)>(s: seq<T>, v: T): (r: seq<T>)
    ensures |r| <= |s|
    ensures v !in r
    ensures forall i :: 0 <= i < |r| ==> r[i] in s && r[i] != v
    ensures forall i :: 0 <= i < |s| && s[i] != v ==> s[i] in r
    ensures v !in s ==> r == s
  {
    if s == [] then []
    else if s[0] == v then RemoveAll(s[1..], v)
    else [s[0]] + RemoveAll(s[1..], v)
  }

  /** No value occurs twice. */
  predicate NoDuplicates<T(==)>(s: seq<T>)
  {
    forall i, j :: 0 <= i < j < |s| ==> s[i] != s[j]
  }

  /** Filtering distributes over concatenation, so the kept elements stay in
      their original relative order. */
  lemma {:induction false} RemoveAllConcat<T>(a: seq<T>, b: seq<T>, v: T)
    ensures RemoveAll(a + b, v) == RemoveAll(a, v) + RemoveAll(b, v)
    decreases |a|
  {
    if a == [] {
      assert a + b == b;
    } else {
      assert (a + b)[0] == a[0];
      assert (a + b)[1..] == a[1..] + b;
      RemoveAllConcat(a[1..], b, v);
    }
  }
  /** Filtering never introduces a repeated value. */
  lemma {:induction false} RemoveAllKeepsDistinct<T>(s: seq<T>, v: T)
    requires NoDuplicates(s)
    ensures NoDuplicates(RemoveAll(s, v))
    decreases |s|
  {
    if s != [] {
      assert NoDuplicates(s[1..]) by {
        forall i, j | 0 <= i < j < |s[1..]|
          ensures s[1..][i] != s[1..][j]
        {
          assert s[1..][i] == s[i + 1] && s[1..][j] == s[j + 1];
        }
      }
      RemoveAllKeepsDistinct(s[1..], v);
      if s[0] != v {
        var rest := RemoveAll(s[1..], v);
        assert s[0] !in rest;
        forall i, j | 0 <= i < j < |[s[0]] + rest|
          ensures ([s[0]] + rest)[i] != ([s[0]] + rest)[j]
        {
          if i == 0 {
            assert ([s[0]] + rest)[j] == rest[j - 1];
          } else {
            assert ([s[0]] + rest)[i] == rest[i - 1] && ([s[0]] + rest)[j] == rest[j - 1];
          }
        }
      }
    }
  }
}
