/**
 * Shared vocabulary of the file-manager backend model: optional values,
 * results, HTTP replies, JavaScript truthiness of strings, and the
 * fresh-name oracle that stands for ObjectId and uuid generation.
 */
module Common {

  datatype Option<+T> = None | Some(value: T) {
    function GetOr(default: T): T {
      match this
      case Some(v) => v
      case None => default
    }
  }

  datatype Result<+T, +E> = Success(value: T) | Failure(error: E)

  /** What a route handler answers: a success status with a body, or an
      error status with the `error` text of the JSON body. */
  datatype Reply<+T> = Done(status: nat, body: T) | Refused(status: nat, error: string)

  /** The 401 reply at any body type. */
  function Unauthorized<T>(): Reply<T> {
    Refused(401, "Unauthorized")
  }

  /** JavaScript's `!!v` for a value that is either undefined or a string:
      undefined and the empty string are falsy. */
  predicate Truthy(v: Option<string>) {
    v.Some? && v.value != ""
  }

  // ---------------------------------------------------------------------
  // Fresh names. The n-th uuid handed out is modelled as the decimal
  // spelling of n, and the n-th ObjectId as that spelling wrapped in
  // `ObjectId(...)`; what matters about the real generators is that they
  // never repeat, which here is the injectivity of Digits.
  // ---------------------------------------------------------------------

  function DigitChar(d: nat): (c: char)
    requires d < 10
    ensures '0' <= c <= '9'
  {
    ['0', '1', '2', '3', '4', '5', '6', '7', '8', '9'][d]
  }

  function Digits(n: nat): (s: string)
    ensures |s| >= 1
    ensures forall i :: 0 <= i < |s| ==> '0' <= s[i] <= '9'
    ensures n >= 10 ==> |s| >= 2
  {
    if n < 10 then [DigitChar(n)] else Digits(n / 10) + [DigitChar(n % 10)]
  }

  lemma DigitCharInjective(a: nat, b: nat)
    requires a < 10 && b < 10 && DigitChar(a) == DigitChar(b)
    ensures a == b
  {
  }

  /** No two numbers share a decimal spelling. */
  lemma {:induction false} DigitsInjective(a: nat, b: nat)
    requires Digits(a) == Digits(b)
    ensures a == b
  {
    if a < 10 && b < 10 {
      DigitCharInjective(a, b);
    } else if a >= 10 && b >= 10 {
      var sa, sb := Digits(a), Digits(b);
      assert sa[|sa| - 1] == DigitChar(a % 10);
      assert sb[|sb| - 1] == DigitChar(b % 10);
      DigitCharInjective(a % 10, b % 10);
      assert sa[..|sa| - 1] == Digits(a / 10);
      assert sb[..|sb| - 1] == Digits(b / 10);
      DigitsInjective(a / 10, b / 10);
    }
  }

  /** The n-th document identifier a collection hands out. Its spelling
      starts with a letter, so that no decimal numeral, such as a client's
      `"123"` or `"0"`, is ever the id of a document. */
  function ObjectIdOf(n: nat): (id: string)
    ensures id != ""
  {
    "ObjectId(" + Digits(n) + ")"
  }

  /** A string made of decimal digits only names no document. */
  lemma NumeralIsNoObjectId(s: string, n: nat)
    requires forall k :: 0 <= k < |s| ==> '0' <= s[k] <= '9'
    ensures ObjectIdOf(n) != s
  {
    assert ObjectIdOf(n)[0] == 'O';
  }

  /** The n-th uuid the generator hands out. */
  function Uuid(n: nat): (u: string)
    ensures u != ""
  {
    Digits(n)
  }

  lemma ObjectIdFresh(a: nat, b: nat)
    requires a != b
    ensures ObjectIdOf(a) != ObjectIdOf(b)
  {
    if ObjectIdOf(a) == ObjectIdOf(b) {
      var ia, ib := ObjectIdOf(a), ObjectIdOf(b);
      var k := |"ObjectId("|;
      assert ia[k..|ia| - 1] == Digits(a);
      assert ib[k..|ib| - 1] == Digits(b);
      DigitsInjective(a, b);
    }
  }

  lemma UuidFresh(a: nat, b: nat)
    requires a != b
    ensures Uuid(a) != Uuid(b)
  {
    if Uuid(a) == Uuid(b) { DigitsInjective(a, b); }
  }
}
