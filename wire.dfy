/** The wire format both sides share: the values a multiplex frame is made of,
    the JavaScript coercions the code applies to them, the frame encoder used
    by both `packet` helpers, and the string format of client channel ids. */
module Wire {

  datatype Option<+T> = None | Some(value: T)

  /** One JSON value that can stand in an array on the wire (integers only). */
  datatype Elem = Num(n: int) | Str(s: string) | Bool(b: bool) | Null

  /** The `data` of an inbound host packet: an array, or any other value. */
  datatype Payload = Array(items: seq<Elem>) | NonArray(value: Elem)

  /** An outbound frame, the array handed to `spark.write`. */
  type Packet = seq<Elem>

  /** The type codes of the `packets` table. */
  const MESSAGE: int := 2
  const SUBSCRIBE: int := 3
  const UNSUBSCRIBE: int := 4

  /** JavaScript truthiness; `None` stands for an omitted argument (`undefined`). */
  predicate Truthy(d: Option<Elem>)
    ensures Truthy(d) ==> d.Some? && d.value != Null
    ensures d == Some(Num(0)) || d == Some(Str("")) || d == Some(Bool(false)) ==> !Truthy(d)
  {
    match d
    case None => false
    case Some(Num(n)) => n != 0
    case Some(Str(s)) => s != ""
    case Some(Bool(b)) => b
    case Some(Null) => false
  }

  predicate IsDigit(c: char)
  {
    '0' <= c <= '9'
  }

  function Digit(d: nat): (c: char)
    requires d < 10
    ensures IsDigit(c) && c as int - '0' as int == d
  {
    ('0' as int + d) as char
  }

  /** `String(n)` for a natural number: its shortest decimal numeral. */
  function NatToDecimal(n: nat): (s: string)
    ensures |s| >= 1
    ensures forall i :: 0 <= i < |s| ==> IsDigit(s[i])
    ensures |s| > 1 ==> s[0] != '0'
    decreases n
  {
    if n < 10 then [Digit(n)] else NatToDecimal(n / 10) + [Digit(n % 10)]
  }

  /** Distinct numbers have distinct numerals. */
  lemma {:induction false} DecimalInjective(a: nat, b: nat)
    requires NatToDecimal(a) == NatToDecimal(b)
    ensures a == b
  {
    var sa, sb := NatToDecimal(a), NatToDecimal(b);
    if a < 10 && b < 10 {
      assert Digit(a) == sa[0] == sb[0] == Digit(b);
    } else if a < 10 {
      assert false;
    } else if b < 10 {
      assert false;
    } else {
      var n := |sa|;
      assert sa[..n - 1] == NatToDecimal(a / 10);
      assert sb[..n - 1] == NatToDecimal(b / 10);
      DecimalInjective(a / 10, b / 10);
      assert Digit(a % 10) == sa[n - 1] == sb[n - 1] == Digit(b % 10);
    }
  }

  /** `String(n)` for an integer. */
  function IntToString(n: int): string
  {
    if n < 0 then "-" + NatToDecimal(-n) else NatToDecimal(n)
  }

  /** The string an element contributes to `Array.prototype.join('')`. */
  function Text(e: Elem): (s: string)
    ensures e.Str? ==> s == e.s
    ensures e.Null? ==> s == ""
    ensures e.Num? || e.Bool? ==> s != ""
  {
    match e
    case Num(n) => IntToString(n)
    case Str(s) => s
    case Bool(b) => if b then "true" else "false"
    case Null => ""
  }

  /** `items.join('')`. */
  function Join(items: seq<Elem>): (s: string)
    ensures |items| == 1 ==> s == Text(items[0])
  {
    if items == [] then "" else Text(items[0]) + Join(items[1..])
  }

  /** The property key a value is coerced to when it indexes an object;
      `None` is `undefined`, what `shift` yields on an empty array. */
  function Key(e: Option<Elem>): (k: string)
    ensures e.Some? && e.value.Str? ==> k == e.value.s
    ensures e.Some? && e.value.Num? && e.value.n >= 0 ==> k == NatToDecimal(e.value.n)
    ensures e.None? ==> k == "undefined"
  {
    match e
    case None => "undefined"
    case Some(Null) => "null"
    case Some(x) => Text(x)
  }

  /** A frame `[code, id, name]`, followed by `data` exactly when `data` is truthy. */
  predicate Framed(p: Packet, code: int, id: string, name: string, data: Option<Elem>)
  {
    && 3 <= |p| <= 4
    && p[0] == Num(code) && p[1] == Str(id) && p[2] == Str(name)
    && (|p| == 4 <==> Truthy(data))
    && (|p| == 4 ==> data == Some(p[3]))
  }

  /** The body of both sides' `packet(type, data)` helpers. */
  function Encode(code: int, id: string, name: string, data: Option<Elem>): (p: Packet)
    ensures Framed(p, code, id, name, data)
  {
    if Truthy(data) then [Num(code), Str(id), Str(name), data.value]
    else [Num(code), Str(id), Str(name)]
  }

  /** `uuid.ids` is a JavaScript number: `ids++` adds one up to 2^53, where
      `2^53 + 1` rounds back to `2^53`, so from there on it stays put. */
  const COUNTER_LIMIT: nat := 0x20_0000_0000_0000

  /** The value a counter holds after `ids++`, for a counter started at 0. */
  function Increment(n: nat): (m: nat)
    requires n <= COUNTER_LIMIT
    ensures m <= COUNTER_LIMIT
    ensures n < COUNTER_LIMIT ==> m == n + 1
    ensures n == COUNTER_LIMIT ==> m == n
  {
    if n < COUNTER_LIMIT then n + 1 else n
  }

  /** The client id `Date.now() + '$' + count`: a `'$'` right after the clock
      reading's numeral. */
  function UuidOf(now: nat, count: nat): (id: string)
    ensures |id| > |NatToDecimal(now)| && id[|NatToDecimal(now)|] == '$'
  {
    NatToDecimal(now) + "$" + NatToDecimal(count)
  }

  /** That `'$'` is the only one in the id: every other character is a digit. */
  lemma UuidShape(now: nat, count: nat)
    ensures var id := UuidOf(now, count);
      forall i :: 0 <= i < |id| ==> (IsDigit(id[i]) <==> i != |NatToDecimal(now)|)
  {
  }

  /** The part before the only `'$'` of an id is its clock reading and the
      part after it is its counter, so an id determines both. */
  lemma UuidInjective(now1: nat, count1: nat, now2: nat, count2: nat)
    requires UuidOf(now1, count1) == UuidOf(now2, count2)
    ensures now1 == now2 && count1 == count2
  {
    var x1, x2 := NatToDecimal(now1), NatToDecimal(now2);
    var y1, y2 := NatToDecimal(count1), NatToDecimal(count2);
    var s := UuidOf(now1, count1);
    assert s == x1 + "$" + y1 && s == x2 + "$" + y2;
    assert s[|x1|] == '$' && s[|x2|] == '$';
    assert forall i :: 0 <= i < |x1| ==> s[i] == x1[i];
    assert forall i :: 0 <= i < |x2| ==> s[i] == x2[i];
    assert |x1| == |x2|;
    assert x1 == s[..|x1|] == x2;
    assert y1 == s[|x1| + 1..] == y2;
    DecimalInjective(now1, now2);
    DecimalInjective(count1, count2);
  }

  /** Ids minted with different counter values differ, whatever the clock said. */
  lemma UuidDistinct(now1: nat, count1: nat, now2: nat, count2: nat)
    requires count1 != count2
    ensures UuidOf(now1, count1) != UuidOf(now2, count2)
  {
    if UuidOf(now1, count1) == UuidOf(now2, count2) {
      UuidInjective(now1, count1, now2, count2);
    }
  }
}
