/** Searching, splitting and printing of text, with the meaning of each stated independently. */
module Text {
  import opened Options

  predicate OccursAt(sub: string, s: string, i: int) {
    0 <= i <= |s| - |sub| && s[i..i + |sub|] == sub
  }

  function FindFrom(sub: string, s: string, from: nat): (r: Option<nat>)
    ensures r.Some? ==> from <= r.value && OccursAt(sub, s, r.value)
    ensures forall i :: from <= i && OccursAt(sub, s, i) ==> r.Some? && r.value <= i
    decreases |s| - from
  {
    if from + |sub| > |s| then None
    else if OccursAt(sub, s, from) then Some(from)
    else FindFrom(sub, s, from + 1)
  }

  /** The first occurrence of `sub` in `s`. */
  function Find(sub: string, s: string): Option<nat> { FindFrom(sub, s, 0) }

  /** s.split(separator) */
  function Split(s: string, separator: char): (parts: seq<string>)
    ensures parts != [] && forall p <- parts :: separator !in p
  {
    if s == "" then [""]
    else
      var rest := Split(s[1..], separator);
      if s[0] == separator then [""] + rest else [[s[0]] + rest[0]] + rest[1..]
  }

  predicate OneLine(s: string) { '\n' !in s }

  function Join(parts: seq<string>, separator: string): string {
    if parts == [] then ""
    else if |parts| == 1 then parts[0]
    else parts[0] + separator + Join(parts[1..], separator)
  }

  lemma {:induction false} SplitField(field: string, rest: string, separator: char)
    requires separator !in field
    ensures Split(field + [separator] + rest, separator) == [field] + Split(rest, separator)
    ensures Split(field, separator) == [field]
  {
    var s := field + [separator] + rest;
    if field != "" {
      SplitField(field[1..], rest, separator);
      assert s[1..] == field[1..] + [separator] + rest;
      assert field == [field[0]] + field[1..];
    } else {
      assert s == [separator] + rest;
    }
  }

  /** Splitting what was joined gives the fields back, as long as none holds the separator. */
  lemma {:induction false} SplitJoin(parts: seq<string>, separator: char)
    requires parts != [] && forall p <- parts :: separator !in p
    ensures Split(Join(parts, [separator]), separator) == parts
  {
    if |parts| == 1 {
      SplitField(parts[0], "", separator);
    } else {
      SplitJoin(parts[1..], separator);
      var rest := Join(parts[1..], [separator]);
      SplitField(parts[0], rest, separator);
      assert Join(parts, [separator]) == parts[0] + [separator] + rest;
    }
  }

  /** Joining what was split gives the text back, whatever the text. */
  lemma {:induction false} JoinSplit(s: string, separator: char)
    ensures Join(Split(s, separator), [separator]) == s
  {
    if s == "" {
    } else {
      JoinSplit(s[1..], separator);
      var rest := Split(s[1..], separator);
      if s[0] == separator {
        assert Split(s, separator)[1..] == rest;
      } else {
        assert Split(s, separator)[1..] == rest[1..];
      }
      assert s == [s[0]] + s[1..];
    }
  }

  /** The characters str.strip removes. */
  predicate IsSpace(c: char) {
    var n := c as int;
    || 9 <= n <= 13 || 28 <= n <= 32 || n == 0x85 || n == 0xA0 || n == 0x1680
    || 0x2000 <= n <= 0x200A || n == 0x2028 || n == 0x2029 || n == 0x202F || n == 0x205F || n == 0x3000
  }

  function StripLeft(s: string): string {
    if s != "" && IsSpace(s[0]) then StripLeft(s[1..]) else s
  }

  function StripRight(s: string): string {
    if s != "" && IsSpace(s[|s| - 1]) then StripRight(s[..|s| - 1]) else s
  }

  function Strip(s: string): string { StripRight(StripLeft(s)) }

  predicate AllSpace(s: string) { forall k :: 0 <= k < |s| ==> IsSpace(s[k]) }

  /** Strip takes whitespace off both ends and nothing else. */
  lemma StripMeans(s: string) returns (left: string, right: string)
    ensures s == left + Strip(s) + right && AllSpace(left) && AllSpace(right)
    ensures Strip(s) != "" ==> !IsSpace(Strip(s)[0]) && !IsSpace(Strip(s)[|Strip(s)| - 1])
  {
    left := StripLeftMeans(s);
    right := StripRightMeans(StripLeft(s));
    assert Strip(s) != "" ==> Strip(s)[0] == StripLeft(s)[0];
  }

  lemma {:induction false} StripLeftMeans(s: string) returns (left: string)
    ensures s == left + StripLeft(s) && AllSpace(left) && (StripLeft(s) != "" ==> !IsSpace(StripLeft(s)[0]))
  {
    if s == "" || !IsSpace(s[0]) {
      left := "";
    } else {
      var rest := StripLeftMeans(s[1..]);
      left := [s[0]] + rest;
      assert s == [s[0]] + s[1..];
    }
  }

  lemma {:induction false} StripRightMeans(s: string) returns (right: string)
    ensures s == StripRight(s) + right && AllSpace(right)
    ensures StripRight(s) != "" ==> !IsSpace(StripRight(s)[|StripRight(s)| - 1])
  {
    if s == "" || !IsSpace(s[|s| - 1]) {
      right := "";
    } else {
      var front := s[..|s| - 1];
      var rest := StripRightMeans(front);
      right := rest + [s[|s| - 1]];
      assert StripRight(s) == StripRight(front);
      assert s == front + [s[|s| - 1]] == StripRight(front) + rest + [s[|s| - 1]];
    }
  }

  lemma {:induction false} StripTail(body: string, tail: string)
    requires body != "" && !IsSpace(body[0]) && !IsSpace(body[|body| - 1])
    requires forall c <- tail :: IsSpace(c)
    ensures Strip(body + tail) == body
    decreases |tail|
  {
    if tail == "" {
      assert body + tail == body;
    } else {
      var shorter := tail[..|tail| - 1];
      StripTail(body, shorter);
      assert (body + tail)[..|body + tail| - 1] == body + shorter;
    }
  }

  // ----- printf("%d"), printf("%u") -----

  function Digit(n: nat): char
    requires n < 10
  {
    '0' + n as char
  }

  function Digits(n: nat): string {
    if n < 10 then [Digit(n)] else Digits(n / 10) + [Digit(n % 10)]
  }

  function Decimal(n: int): string {
    if n < 0 then "-" + Digits(-n) else Digits(n)
  }

  function ReadDigits(s: string): int {
    if s == "" then 0 else 10 * ReadDigits(s[..|s| - 1]) + (s[|s| - 1] as int - '0' as int)
  }

  function ReadInt(s: string): int {
    if s != "" && s[0] == '-' then -ReadDigits(s[1..]) else ReadDigits(s)
  }

  lemma {:induction false} DigitsShape(n: nat)
    ensures Digits(n) != "" && forall c <- Digits(n) :: '0' <= c <= '9'
    ensures ReadDigits(Digits(n)) == n
  {
    if n >= 10 {
      DigitsShape(n / 10);
      assert Digits(n)[..|Digits(n)| - 1] == Digits(n / 10);
    } else {
      assert Digits(n)[..0] == "";
    }
  }

  /** Reading a printed integer gives the integer. */
  lemma ReadDecimal(n: int)
    ensures ReadInt(Decimal(n)) == n
  {
    DigitsShape(if n < 0 then -n else n);
    if n < 0 {
      assert Decimal(n)[1..] == Digits(-n);
    } else {
      assert Digits(n)[0] in Digits(n);
    }
  }

  lemma {:induction false} DigitsLength(n: nat, power: nat, length: nat)
    requires length >= 1 && power == Power(length) && n < power
    ensures |Digits(n)| <= length
  {
    if n >= 10 {
      DigitsLength(n / 10, Power(length - 1), length - 1);
    }
  }

  function Power(exponent: nat): nat { if exponent == 0 then 1 else 10 * Power(exponent - 1) }
}
