/** The few string operations of Go's strings and strconv packages that the URL code uses. */
module Text {
  import opened Prelude

  function IndexFrom(s: string, c: char, from: nat): (i: int)
    requires from <= |s|
    ensures i == -1 || from <= i < |s|
    ensures if i == -1 then forall k :: from <= k < |s| ==> s[k] != c
            else s[i] == c && forall k :: from <= k < i ==> s[k] != c
    decreases |s| - from
  {
    if from == |s| then -1 else if s[from] == c then from else IndexFrom(s, c, from + 1)
  }

  function IndexOf(s: string, c: char): (i: int)
    ensures -1 <= i < |s|
    ensures i >= 0 ==> s[i] == c && forall k :: 0 <= k < i ==> s[k] != c
    ensures i == -1 <==> c !in s
  {
    IndexFrom(s, c, 0)
  }

  /** The index is determined by what it means. */
  lemma IndexIs(s: string, c: char, i: nat)
    requires i < |s| && s[i] == c && forall k :: 0 <= k < i ==> s[k] != c
    ensures IndexOf(s, c) == i
  {
  }

  lemma IndexOfFirst(a: string, c: char, b: string)
    requires c !in a
    ensures IndexOf(a + [c] + b, c) == |a|
  {
    var s := a + [c] + b;
    assert forall k :: 0 <= k < |a| ==> s[k] == a[k];
    IndexIs(s, c, |a|);
  }

  function Split(s: string, sep: char): (parts: seq<string>)
    ensures |parts| >= 1
    decreases |s|
  {
    var i := IndexOf(s, sep);
    if i == -1 then [s] else [s[..i]] + Split(s[i + 1..], sep)
  }

  function Join(parts: seq<string>, sep: char): string {
    if parts == [] then "" else if |parts| == 1 then parts[0] else parts[0] + [sep] + Join(parts[1..], sep)
  }

  lemma {:induction false} SplitUndoesJoin(parts: seq<string>, sep: char)
    requires parts != [] && forall p :: p in parts ==> sep !in p
    ensures Split(Join(parts, sep), sep) == parts
    decreases |parts|
  {
    var head := parts[0];
    if |parts| == 1 {
      assert parts == [head];
    } else {
      var rest := Join(parts[1..], sep);
      IndexOfFirst(head, sep, rest);
      var s := head + [sep] + rest;
      assert s[..|head|] == head && s[|head| + 1..] == rest;
      SplitUndoesJoin(parts[1..], sep);
      assert parts == [head] + parts[1..];
    }
  }

  lemma {:induction false} JoinAvoids(parts: seq<string>, sep: char, c: char)
    requires c != sep && forall p :: p in parts ==> c !in p
    ensures c !in Join(parts, sep)
    decreases |parts|
  {
    if |parts| > 1 { JoinAvoids(parts[1..], sep, c); }
  }

  /** unicode.IsSpace. */
  predicate IsSpace(c: char) {
    var n := c as int;
    9 <= n <= 13 || n == 32 || n == 0x85 || n == 0xA0 || n == 0x1680 || 0x2000 <= n <= 0x200A
    || n == 0x2028 || n == 0x2029 || n == 0x202F || n == 0x205F || n == 0x3000
  }

  function TrimRight(s: string): (r: string)
    ensures r <= s && (r == [] || !IsSpace(r[|r| - 1]))
    ensures r == s <==> s == [] || !IsSpace(s[|s| - 1])
    ensures forall i :: |r| <= i < |s| ==> IsSpace(s[i])
  {
    if s != [] && IsSpace(s[|s| - 1]) then TrimRight(s[..|s| - 1]) else s
  }

  function TrimLeft(s: string): string {
    if s != [] && IsSpace(s[0]) then TrimLeft(s[1..]) else s
  }

  function TrimSpace(s: string): string {
    TrimRight(TrimLeft(s))
  }

  // ---- decimal numbers ----

  type Int64 = x: int | -0x8000_0000_0000_0000 <= x < 0x8000_0000_0000_0000

  function Digit(d: nat): char
    requires d < 10
  {
    ('0' as int + d) as char
  }

  function Digits(n: nat): string {
    if n < 10 then [Digit(n)] else Digits(n / 10) + [Digit(n % 10)]
  }

  function Itoa(n: int): string {
    if n < 0 then "-" + Digits(-n) else Digits(n)
  }

  predicate AllDigits(s: string) {
    forall i :: 0 <= i < |s| ==> '0' <= s[i] <= '9'
  }

  function Number(s: string): int
    requires AllDigits(s)
  {
    if s == [] then 0 else Number(s[..|s| - 1]) * 10 + (s[|s| - 1] as int - '0' as int)
  }

  function Signed(digits: string, negative: bool): Option<Int64> {
    if digits == [] || !AllDigits(digits) then None
    else
      var n := if negative then 0 - Number(digits) else Number(digits);
      if -0x8000_0000_0000_0000 <= n < 0x8000_0000_0000_0000 then Some(n) else None
  }

  /** strconv.Atoi: an optional sign and decimal digits, within 64 bits. */
  function Atoi(s: string): Option<Int64> {
    if s != [] && s[0] == '-' then Signed(s[1..], true)
    else if s != [] && s[0] == '+' then Signed(s[1..], false)
    else Signed(s, false)
  }

  lemma {:induction false} DigitsRead(n: nat)
    ensures |Digits(n)| >= 1 && AllDigits(Digits(n)) && Number(Digits(n)) == n
    decreases n
  {
    if n >= 10 {
      DigitsRead(n / 10);
      assert Digits(n)[..|Digits(n)| - 1] == Digits(n / 10);
    } else {
      assert Number([Digit(n)]) == Number([Digit(n)][..0]) * 10 + n;
    }
  }

  lemma AtoiUndoesItoa(n: Int64)
    ensures Atoi(Itoa(n)) == Some(n)
    ensures forall c :: c in Itoa(n) ==> c == '-' || '0' <= c <= '9'
  {
    var m: int := n;
    var digits := Digits(if m < 0 then 0 - m else m);
    DigitsRead(if m < 0 then 0 - m else m);
    if m < 0 {
      assert Itoa(n) == ['-'] + digits && Itoa(n)[1..] == digits;
      assert Signed(digits, true) == Some(n);
    } else {
      assert Itoa(n) == digits && '0' <= digits[0] <= '9';
      assert Signed(digits, false) == Some(n);
    }
  }

  // ---- lists ----

  /** The values of f where it has one. */
  function Collect<S, T>(f: S -> Option<T>, items: seq<S>): seq<T> {
    if items == [] then [] else
      var last := f(items[|items| - 1]);
      Collect(f, items[..|items| - 1]) + if last.Some? then [last.value] else []
  }

  lemma {:induction false} CollectAll<S, T>(f: S -> Option<T>, items: seq<S>, values: seq<T>)
    requires |items| == |values| && forall i :: 0 <= i < |items| ==> f(items[i]) == Some(values[i])
    ensures Collect(f, items) == values
    decreases |items|
  {
    if items != [] {
      CollectAll(f, items[..|items| - 1], values[..|values| - 1]);
      assert values == values[..|values| - 1] + [values[|values| - 1]];
    }
  }
}
